/**
 * The pure unit converters of utils.py that the detail fetchers apply to each item:
 * `covert_to_millions` (a view count compacted to millions, two decimals) and
 * `duration_to_second` (an ISO 8601 duration turned into whole seconds).
 */
module Utils {
  import opened Wrappers

  // ---------------------------------------------------------------------------
  // Decimal digit strings
  // ---------------------------------------------------------------------------

  predicate IsDigit(c: char) {
    '0' <= c <= '9'
  }

  predicate AllDigits(s: string) {
    forall i :: 0 <= i < |s| ==> IsDigit(s[i])
  }

  function DigitValue(c: char): (v: nat)
    requires IsDigit(c)
    ensures v < 10
  {
    c as int - '0' as int
  }

  function DigitChar(v: nat): (c: char)
    requires v < 10
    ensures IsDigit(c) && DigitValue(c) == v
  {
    ('0' as int + v) as char
  }

  /** The integer a string of decimal digits denotes (leading zeros allowed). */
  function DecimalValue(s: string): nat
    requires AllDigits(s)
    decreases |s|
  {
    if s == [] then 0 else 10 * DecimalValue(s[..|s| - 1]) + DigitValue(s[|s| - 1])
  }

  /** The shortest decimal spelling of `n`. */
  function NatToDecimal(n: nat): (s: string)
    ensures AllDigits(s) && |s| >= 1
    decreases n
  {
    if n < 10 then [DigitChar(n)] else NatToDecimal(n / 10) + [DigitChar(n % 10)]
  }

  lemma {:induction false} DecimalRoundTrip(n: nat)
    ensures DecimalValue(NatToDecimal(n)) == n
  {
    var s := NatToDecimal(n);
    if n >= 10 {
      DecimalRoundTrip(n / 10);
      assert s[..|s| - 1] == NatToDecimal(n / 10);
    }
  }

  // ---------------------------------------------------------------------------
  // covert_to_millions (utils.py:70-81)
  // ---------------------------------------------------------------------------

  /** The digit characters of `s`, in their order: `''.join(c for c in s if c.isdigit())`. */
  function DigitsOf(s: string): (d: string)
    ensures AllDigits(d) && |d| <= |s|
    decreases |s|
  {
    if s == [] then [] else (if IsDigit(s[0]) then [s[0]] else []) + DigitsOf(s[1..])
  }

  /** Filtering distributes over concatenation: what is kept keeps its order. */
  lemma {:induction false} DigitsOfConcat(a: string, b: string)
    ensures DigitsOf(a + b) == DigitsOf(a) + DigitsOf(b)
    decreases |a|
  {
    if a != [] {
      var head := if IsDigit(a[0]) then [a[0]] else [];
      assert (a + b)[0] == a[0];
      assert (a + b)[1..] == a[1..] + b;
      DigitsOfConcat(a[1..], b);
      assert DigitsOf(a + b) == head + DigitsOf(a[1..] + b);
      assert DigitsOf(a) == head + DigitsOf(a[1..]);
    } else {
      assert a + b == b;
    }
  }

  /** Every digit character of `s` is kept as often as it occurs, and nothing else is kept. */
  lemma {:induction false} DigitsOfCounts(s: string, c: char)
    ensures multiset(DigitsOf(s))[c] == if IsDigit(c) then multiset(s)[c] else 0
    decreases |s|
  {
    if s != [] {
      DigitsOfCounts(s[1..], c);
      assert s == [s[0]] + s[1..];
      assert multiset(s) == multiset([s[0]]) + multiset(s[1..]);
    }
  }

  /** A string of digits only is kept whole. */
  lemma {:induction false} DigitsOfDigits(s: string)
    requires AllDigits(s)
    ensures DigitsOf(s) == s
    decreases |s|
  {
    if s != [] {
      DigitsOfDigits(s[1..]);
      assert s == [s[0]] + s[1..];
    }
  }

  /**
   * A compacted view count: `Hundredths(h)` stands for the decimal h / 100 (millions of
   * views, two decimals); `Blank` is the empty-string sentinel the source returns on failure.
   */
  datatype Millions = Hundredths(h: nat) | Blank

  /** `n / 10000` rounded to the nearest integer, ties to even. */
  function RoundToHundredths(n: nat): (h: nat)
    ensures 10000 * h - 5000 <= n <= 10000 * h + 5000
    ensures (n % 10000 != 5000) ==> 10000 * h - 5000 < n < 10000 * h + 5000
  {
    var q, r := n / 10000, n % 10000;
    if r > 5000 || (r == 5000 && q % 2 == 1) then q + 1 else q
  }

  /**
   * `covert_to_millions`. `count` is None when the argument is not a string (the source's
   * default integer 0 for a missing `viewCount`), which is not iterable and so yields the
   * sentinel; so does a string without digits, on which `float('')` raises.
   */
  function ConvertToMillions(count: Option<string>): (m: Millions)
    ensures m.Blank? <==> (count.None? || DigitsOf(count.value) == [])
    ensures m.Hundredths? ==>
              var n := DecimalValue(DigitsOf(count.value));
              10000 * m.h - 5000 <= n <= 10000 * m.h + 5000
  {
    match count
    case None => Blank
    case Some(s) =>
      var digits := DigitsOf(s);
      if digits == [] then Blank else Hundredths(RoundToHundredths(DecimalValue(digits)))
  }

  /** A string without digits keeps nothing. */
  lemma {:induction false} DigitsOfNone(s: string)
    requires forall i :: 0 <= i < |s| ==> !IsDigit(s[i])
    ensures DigitsOf(s) == []
    decreases |s|
  {
    if s != [] {
      DigitsOfNone(s[1..]);
    }
  }

  lemma DecimalValueSnoc(s: string, c: char)
    requires AllDigits(s) && IsDigit(c)
    ensures DecimalValue(s + [c]) == 10 * DecimalValue(s) + DigitValue(c)
  {
    assert (s + [c])[..|s|] == s;
  }

  /** A view count with separators: 1,234,567 views are 1.23 million. */
  lemma MillionsOfSeparatedCount()
    ensures ConvertToMillions(Some("1,234,567")) == Hundredths(123)
  {
    SeparatedCountDigits();
    SeparatedCountValue();
  }

  lemma SeparatedCountDigits()
    ensures DigitsOf("1,234,567") == "1234567"
  {
    var a, b, c := ['1'], [',', '2', '3', '4'], [',', '5', '6', '7'];
    var kb, kc := ['2', '3', '4'], ['5', '6', '7'];
    assert DigitsOf(a) == a by {
      DigitsOfDigits(a);
    }
    assert DigitsOf(b + c) == kb + kc by {
      GroupDigits('2', '3', '4');
      GroupDigits('5', '6', '7');
      DigitsOfConcat(b, c);
    }
    assert DigitsOf(a + (b + c)) == a + (kb + kc) by {
      DigitsOfConcat(a, b + c);
    }
    assert a + (b + c) == "1,234,567";
    assert a + (kb + kc) == "1234567";
  }

  /** A thousands group `,xyz` keeps its three digits. */
  lemma GroupDigits(x: char, y: char, z: char)
    requires IsDigit(x) && IsDigit(y) && IsDigit(z)
    ensures DigitsOf([',', x, y, z]) == [x, y, z]
  {
    var s := [',', x, y, z];
    assert s[1..] == [x, y, z];
    DigitsOfDigits([x, y, z]);
  }

  lemma SeparatedCountValue()
    ensures DecimalValue("1234567") == 1234567
  {
    var s1 := ['1'];
    var s2 := s1 + ['2', '3', '4'];
    var s3 := s2 + ['5', '6', '7'];
    assert DecimalValue(s1) == 1 by { assert s1[..0] == []; }
    DecimalValueGroup(s1, '2', '3', '4');
    DecimalValueGroup(s2, '5', '6', '7');
    assert s3 == "1234567";
  }

  /** Appending a group of three digits multiplies by a thousand and adds the group. */
  lemma DecimalValueGroup(s: string, x: char, y: char, z: char)
    requires AllDigits(s) && IsDigit(x) && IsDigit(y) && IsDigit(z)
    ensures AllDigits(s + [x, y, z])
    ensures DecimalValue(s + [x, y, z])
         == 1000 * DecimalValue(s) + 100 * DigitValue(x) + 10 * DigitValue(y) + DigitValue(z)
  {
    var sx := s + [x];
    var sxy := sx + [y];
    assert AllDigits(sx) by { assert forall i :: 0 <= i < |s| ==> sx[i] == s[i]; }
    assert AllDigits(sxy) by { assert forall i :: 0 <= i < |sx| ==> sxy[i] == sx[i]; }
    assert AllDigits(sxy + [z]) by { assert forall i :: 0 <= i < |sxy| ==> (sxy + [z])[i] == sxy[i]; }
    DecimalValueSnoc(s, x);
    DecimalValueSnoc(sx, y);
    DecimalValueSnoc(sxy, z);
    assert s + [x, y, z] == sxy + [z];
  }

  /** No digits, or no string at all, give the sentinel; "0" gives 0.00. */
  lemma MillionsEdgeCases()
    ensures ConvertToMillions(Some("n/a")) == Blank
    ensures ConvertToMillions(Some("")) == Blank
    ensures ConvertToMillions(None) == Blank
    ensures ConvertToMillions(Some("0")) == Hundredths(0)
  {
    DigitsOfNone("n/a");
    assert DigitsOf("0") == "0";
  }

  // ---------------------------------------------------------------------------
  // duration_to_second (utils.py:48-53): ISO 8601 durations of the form PnDTnHnMnS
  // ---------------------------------------------------------------------------

  /** The designator values of a duration; an omitted component is zero. */
  datatype Duration = Duration(days: nat, hours: nat, minutes: nat, seconds: nat)

  function TotalSeconds(d: Duration): nat {
    d.days * 86400 + d.hours * 3600 + d.minutes * 60 + d.seconds
  }

  /** Length of the run of digits at the front of `s`. */
  function DigitRun(s: string): (k: nat)
    ensures k <= |s| && (k < |s| ==> !IsDigit(s[k]))
    decreases |s|
  {
    if s != [] && IsDigit(s[0]) then 1 + DigitRun(s[1..]) else 0
  }

  /** The run at the front is made of digits. */
  lemma {:induction false} DigitRunDigits(s: string)
    ensures AllDigits(s[..DigitRun(s)])
    decreases |s|
  {
    if s != [] && IsDigit(s[0]) {
      DigitRunDigits(s[1..]);
      var k := DigitRun(s);
      assert s[..k] == [s[0]] + s[1..][..k - 1];
    }
  }

  /** What reading one optional component "n<des>" off the front of a string gives. */
  datatype Taken = Taken(value: Option<nat>, rest: string)

  /** Reads "digits designator" off the front of `s`; absent, it consumes nothing. */
  function Designated(s: string, des: char): Taken {
    var k := DigitRun(s);
    DigitRunDigits(s);
    if 0 < k < |s| && s[k] == des then Taken(Some(DecimalValue(s[..k])), s[k + 1..]) else Taken(None, s)
  }

  /** The components after the time designator "T": hours, minutes, seconds. */
  datatype TimeParts = TimeParts(hours: Option<nat>, minutes: Option<nat>, seconds: Option<nat>)

  /** Reads "[nH][nM][nS]" with nothing after; all three may be absent. */
  function ParseTime(t: string): Option<TimeParts> {
    var h := Designated(t, 'H');
    var m := Designated(h.rest, 'M');
    var sec := Designated(m.rest, 'S');
    if sec.rest != [] then None else Some(TimeParts(h.value, m.value, sec.value))
  }

  /**
   * isodate's period pattern restricted to "P[nD][T[nH][nM][nS]]": "P" must be followed by
   * something ("P" alone is an error) and "T" may have no component after it ("PT" is zero).
   */
  function ParsePeriod(s: string): Option<Duration> {
    if |s| < 2 || s[0] != 'P' then None
    else
      var date := Designated(s[1..], 'D');
      if date.rest == [] then Some(Duration(date.value.GetOr(0), 0, 0, 0))
      else if date.rest[0] != 'T' then None
      else
        match ParseTime(date.rest[1..])
        case None => None
        case Some(tp) =>
          Some(Duration(date.value.GetOr(0), tp.hours.GetOr(0), tp.minutes.GetOr(0), tp.seconds.GetOr(0)))
  }

  /** The text without one final newline, which Python's `$` at the end of a pattern lets through. */
  function WithoutFinalNewline(s: string): string {
    if s != [] && s[|s| - 1] == '\n' then s[..|s| - 1] else s
  }

  /** `isodate.parse_duration` on this grammar; None is the raised error. */
  function ParseDuration(s: string): (r: Option<Duration>)
    ensures r.Some? ==> |s| >= 2 && s[0] == 'P'
  {
    ParsePeriod(WithoutFinalNewline(s))
  }

  /** Without a final newline there is nothing to drop. */
  lemma NoFinalNewline(s: string)
    requires s == [] || s[|s| - 1] != '\n'
    ensures ParseDuration(s) == ParsePeriod(s)
  {
  }

  /** `timedelta.max` is 999999999 days and just under one more day; beyond it is OverflowError. */
  const MaxTimedeltaDays: nat := 999_999_999

  /** The durations a `timedelta` can hold, in whole seconds: fewer than 1000000000 days. */
  predicate FitsTimedelta(seconds: nat) {
    seconds < 86_400_000_000_000
  }

  /**
   * `duration_to_second`: total seconds, or None where `parse_duration` raises or the
   * `timedelta` overflows. Below that bound every component and the total are whole numbers
   * under 2^53, so the float arithmetic of `total_seconds` and `int` is exact.
   */
  function DurationToSecond(s: string): (r: Option<nat>)
    ensures r.Some? ==> |s| >= 2 && s[0] == 'P' && FitsTimedelta(r.value)
  {
    match ParseDuration(s)
    case None => None
    case Some(d) => if FitsTimedelta(TotalSeconds(d)) then Some(TotalSeconds(d)) else None
  }

  /** The spelling "n<des>" of a present component, and nothing for an absent one. */
  function Part(o: Option<nat>, des: char): string {
    match o
    case None => ""
    case Some(n) => NatToDecimal(n) + [des]
  }

  /** The ISO 8601 spelling of a duration with the given present components. */
  function FormatDuration(d: Option<nat>, h: Option<nat>, m: Option<nat>, s: Option<nat>): string {
    ['P'] + (Part(d, 'D') + FormatTime(h, m, s))
  }

  /** The time part "T[nH][nM][nS]", or nothing when no time component is present. */
  function FormatTime(h: Option<nat>, m: Option<nat>, s: Option<nat>): string {
    if h.None? && m.None? && s.None? then [] else ['T'] + (Part(h, 'H') + Part(m, 'M') + Part(s, 'S'))
  }

  // ---------------------------------------------------------------------------
  // The duration grammar, stated on the text, and the parser against it
  // ---------------------------------------------------------------------------

  /** `p` spells one optional component "digits<des>" of value `v`; an absent one (`p` empty) is 0. */
  predicate Component(p: string, des: char, v: nat) {
    if p == [] then v == 0
    else |p| >= 2 && p[|p| - 1] == des && AllDigits(p[..|p| - 1]) && DecimalValue(p[..|p| - 1]) == v
  }

  /** `t` is "[nH][nM][nS]" with the given values, absent ones being 0. */
  ghost predicate SpellsTime(t: string, h: nat, m: nat, sec: nat) {
    exists i, j :: 0 <= i <= j <= |t| && Component(t[..i], 'H', h) && Component(t[i..j], 'M', m)
                   && Component(t[j..], 'S', sec)
  }

  /** `s` is "P[nD][T[nH][nM][nS]]", other than "P" alone, and it spells `d`. */
  ghost predicate SpellsPeriod(s: string, d: Duration) {
    && |s| >= 2 && s[0] == 'P'
    && exists k :: && 1 <= k <= |s| && Component(s[1..k], 'D', d.days)
                   && if k == |s| then d.hours == 0 && d.minutes == 0 && d.seconds == 0
                      else s[k] == 'T' && SpellsTime(s[k + 1..], d.hours, d.minutes, d.seconds)
  }

  /** `s` is a period that spells `d`, possibly followed by one newline. */
  ghost predicate Spells(s: string, d: Duration) {
    || SpellsPeriod(s, d)
    || (s != [] && s[|s| - 1] == '\n' && SpellsPeriod(s[..|s| - 1], d))
  }

  /** `s` belongs to the modelled duration grammar. */
  ghost predicate WellFormedDuration(s: string) {
    exists d :: Spells(s, d)
  }

  /** A spelled component is read off the front, unless it is absent and `rest` starts with one `des`. */
  lemma ReadComponent(p: string, des: char, v: nat, rest: string)
    requires !IsDigit(des) && Component(p, des, v)
    requires p == [] ==> Designated(rest, des).value.None?
    ensures Designated(p + rest, des).rest == rest
    ensures Designated(p + rest, des).value.GetOr(0) == v
  {
    if p == [] {
      assert p + rest == rest;
    } else {
      var a := p[..|p| - 1];
      var s := p + rest;
      assert s == a + ([des] + rest);
      DigitRunStops(a, [des] + rest);
      assert s[|a|] == des;
      assert s[..|a|] == a;
      assert s[|a| + 1..] == rest;
    }
  }

  /** A present component with another designator is not read as a component `des`. */
  lemma OtherAhead(p: string, other: char, v: nat, rest: string, des: char)
    requires !IsDigit(other) && other != des && Component(p, other, v) && p != []
    ensures Designated(p + rest, des).value.None?
  {
    var a := p[..|p| - 1];
    var s := p + rest;
    assert s == a + ([other] + rest);
    DigitRunStops(a, [other] + rest);
    assert s[|a|] == other;
  }

  /** `s` is a spelling of component `des` of value `v` followed by the suffix `rest`. */
  predicate Split(s: string, rest: string, des: char, v: nat) {
    |rest| <= |s| && s[|s| - |rest|..] == rest && Component(s[..|s| - |rest|], des, v)
  }

  /** What one read consumes is a spelling of the value it reads. */
  lemma DesignatedSplit(s: string, des: char)
    ensures Split(s, Designated(s, des).rest, des, Designated(s, des).value.GetOr(0))
  {
    var k := DigitRun(s);
    DigitRunDigits(s);
    if 0 < k < |s| && s[k] == des {
      var p := s[..k + 1];
      assert p[..|p| - 1] == s[..k];
    } else {
      assert s[..0] == [];
    }
  }

  /** `ReadComponent` for a text `s` that is the spelling `p` followed by `rest`. */
  lemma ReadComponentAt(s: string, p: string, des: char, v: nat, rest: string)
    requires s == p + rest && !IsDigit(des) && Component(p, des, v)
    requires p == [] ==> Designated(rest, des).value.None?
    ensures Designated(s, des).rest == rest && Designated(s, des).value.GetOr(0) == v
  {
    ReadComponent(p, des, v, rest);
  }

  /** After a spelled time part's first components, the rest is not a component `des`. */
  lemma NothingAhead(pm: string, m: nat, ps: string, sec: nat, des: char)
    requires Component(pm, 'M', m) && Component(ps, 'S', sec) && des != 'M' && des != 'S'
    ensures Designated(pm + ps, des).value.None?
  {
    if pm != [] {
      OtherAhead(pm, 'M', m, ps, des);
    } else if ps != [] {
      assert pm + ps == ps + [];
      OtherAhead(ps, 'S', sec, [], des);
    } else {
      assert pm + ps == [];
    }
  }

  /** A seconds component, or nothing, is not a component `des`. */
  lemma SecondsAhead(ps: string, sec: nat, des: char)
    requires Component(ps, 'S', sec) && des != 'S'
    ensures Designated(ps, des).value.None?
  {
    if ps != [] {
      assert ps + [] == ps;
      OtherAhead(ps, 'S', sec, [], des);
    }
  }

  /** A text is the concatenation of its three pieces at `i` and `j`. */
  lemma ThreeParts(t: string, i: int, j: int)
    requires 0 <= i <= j <= |t|
    ensures t == t[..i] + (t[i..j] + t[j..])
  {
    assert t[i..] == t[i..j] + t[j..];
  }

  /** Every spelled time part is read with its values. */
  lemma TimeSpelled(t: string, h: nat, m: nat, sec: nat)
    requires SpellsTime(t, h, m, sec)
    ensures var p := ParseTime(t);
            p.Some? && p.value.hours.GetOr(0) == h && p.value.minutes.GetOr(0) == m
            && p.value.seconds.GetOr(0) == sec
  {
    var i, j :| 0 <= i <= j <= |t| && Component(t[..i], 'H', h) && Component(t[i..j], 'M', m)
                && Component(t[j..], 'S', sec);
    ThreeParts(t, i, j);
    TimeOfComponents(t[..i], t[i..j], t[j..], h, m, sec);
  }

  /** The time part made of three spelled components is read with their values. */
  lemma TimeOfComponents(ph: string, pm: string, ps: string, h: nat, m: nat, sec: nat)
    requires Component(ph, 'H', h) && Component(pm, 'M', m) && Component(ps, 'S', sec)
    ensures var p := ParseTime(ph + (pm + ps));
            p.Some? && p.value.hours.GetOr(0) == h && p.value.minutes.GetOr(0) == m
            && p.value.seconds.GetOr(0) == sec
  {
    var r1 := pm + ps;
    NothingAhead(pm, m, ps, sec, 'H');
    ReadComponentAt(ph + r1, ph, 'H', h, r1);
    SecondsAhead(ps, sec, 'M');
    ReadComponentAt(r1, pm, 'M', m, ps);
    ReadComponentAt(ps, ps, 'S', sec, []);
  }

  /** Every time part the parser accepts is spelled with the values it reads. */
  lemma TimeParsed(t: string)
    requires ParseTime(t).Some?
    ensures var p := ParseTime(t).value;
            SpellsTime(t, p.hours.GetOr(0), p.minutes.GetOr(0), p.seconds.GetOr(0))
  {
    var h := Designated(t, 'H');
    var m := Designated(h.rest, 'M');
    var sec := Designated(m.rest, 'S');
    DesignatedSplit(t, 'H');
    DesignatedSplit(h.rest, 'M');
    DesignatedSplit(m.rest, 'S');
    SpellsTimeOfReads(t, h.rest, m.rest, sec.rest, h.value.GetOr(0), m.value.GetOr(0), sec.value.GetOr(0));
  }

  /** Three successive reads that leave nothing spell the time part they read. */
  lemma SpellsTimeOfReads(t: string, r1: string, r2: string, r3: string, vh: nat, vm: nat, vs: nat)
    requires Split(t, r1, 'H', vh) && Split(r1, r2, 'M', vm) && Split(r2, r3, 'S', vs) && r3 == []
    ensures SpellsTime(t, vh, vm, vs)
  {
    var i := |t| - |r1|;
    var j := i + (|r1| - |r2|);
    assert t[i..j] == t[i..][..j - i];
    assert t[j..] == t[i..][j - i..];
    assert r2[..|r2| - |r3|] == r2;
    assert Component(t[..i], 'H', vh) && Component(t[i..j], 'M', vm) && Component(t[j..], 'S', vs);
  }

  /** Every spelled duration is parsed to the duration it spells. */
  lemma DurationSpelled(s: string, d: Duration)
    requires SpellsPeriod(s, d)
    ensures ParsePeriod(s) == Some(d)
  {
    var k :| && 1 <= k <= |s| && Component(s[1..k], 'D', d.days)
             && if k == |s| then d.hours == 0 && d.minutes == 0 && d.seconds == 0
                else s[k] == 'T' && SpellsTime(s[k + 1..], d.hours, d.minutes, d.seconds);
    PrefixParts(s, k);
    DurationOfComponents(s[1..k], s[k..], d);
  }

  /** A text starting with "P", cut after the days component at `k`. */
  lemma PrefixParts(s: string, k: int)
    requires 1 <= k <= |s| && s[0] == 'P'
    ensures s == ['P'] + (s[1..k] + s[k..])
    ensures k < |s| ==> s[k..][0] == s[k] && s[k..][1..] == s[k + 1..]
  {
    assert s[1..] == s[1..k] + s[k..];
  }

  /** "P", a spelled days component and a spelled time part, if any, read as their duration. */
  lemma DurationOfComponents(pd: string, tail: string, d: Duration)
    requires Component(pd, 'D', d.days) && (pd != [] || tail != [])
    requires tail == [] ==> d.hours == 0 && d.minutes == 0 && d.seconds == 0
    requires tail != [] ==> tail[0] == 'T' && SpellsTime(tail[1..], d.hours, d.minutes, d.seconds)
    ensures ParsePeriod(['P'] + (pd + tail)) == Some(d)
  {
    var s := ['P'] + (pd + tail);
    assert s[1..] == pd + tail;
    ReadComponentAt(s[1..], pd, 'D', d.days, tail);
    if tail != [] {
      TimeSpelled(tail[1..], d.hours, d.minutes, d.seconds);
    }
  }

  /** Every duration the parser accepts is spelled in the grammar with the values it reads. */
  lemma DurationParsed(s: string)
    requires ParsePeriod(s).Some?
    ensures SpellsPeriod(s, ParsePeriod(s).value)
  {
    var d := ParsePeriod(s).value;
    var date := Designated(s[1..], 'D');
    DesignatedSplit(s[1..], 'D');
    if date.rest != [] {
      TimeParsed(date.rest[1..]);
    }
    SpellsOfReads(s, date.rest, d);
  }

  /** A days read leaving nothing, or "T" and a spelled time part, spells the duration. */
  lemma SpellsOfReads(s: string, r: string, d: Duration)
    requires |s| >= 2 && s[0] == 'P' && Split(s[1..], r, 'D', d.days)
    requires r == [] ==> d.hours == 0 && d.minutes == 0 && d.seconds == 0
    requires r != [] ==> r[0] == 'T' && SpellsTime(r[1..], d.hours, d.minutes, d.seconds)
    ensures SpellsPeriod(s, d)
  {
    var k := 1 + (|s[1..]| - |r|);
    assert s[1..k] == s[1..][..|s[1..]| - |r|];
    assert s[k..] == r;
    if r != [] {
      assert s[k + 1..] == r[1..];
    }
  }

  /** The period parser accepts exactly the periods, and reads what they spell. */
  lemma PeriodSpec(s: string)
    ensures ParsePeriod(s).Some? ==> SpellsPeriod(s, ParsePeriod(s).value)
    ensures forall d :: SpellsPeriod(s, d) ==> ParsePeriod(s) == Some(d)
  {
    if ParsePeriod(s).Some? {
      DurationParsed(s);
    }
    forall d | SpellsPeriod(s, d)
      ensures ParsePeriod(s) == Some(d)
    {
      DurationSpelled(s, d);
    }
  }

  /** A period ends in a designator, never in a newline. */
  lemma PeriodEnd(s: string, d: Duration)
    requires SpellsPeriod(s, d)
    ensures s[|s| - 1] != '\n'
  {
    var k :| && 1 <= k <= |s| && Component(s[1..k], 'D', d.days)
             && if k == |s| then d.hours == 0 && d.minutes == 0 && d.seconds == 0
                else s[k] == 'T' && SpellsTime(s[k + 1..], d.hours, d.minutes, d.seconds);
    PeriodEndAt(s, k, d);
  }

  /** The same, for the days component cut off at `k`. */
  lemma PeriodEndAt(s: string, k: int, d: Duration)
    requires |s| >= 2 && 1 <= k <= |s| && Component(s[1..k], 'D', d.days)
    requires k < |s| ==> s[k] == 'T' && SpellsTime(s[k + 1..], d.hours, d.minutes, d.seconds)
    ensures s[|s| - 1] != '\n'
  {
    if k == |s| {
      var p := s[1..k];
      assert p[|p| - 1] == s[|s| - 1];
    } else if k + 1 < |s| {
      var t := s[k + 1..];
      TimeEnd(t, d.hours, d.minutes, d.seconds);
      assert t[|t| - 1] == s[|s| - 1];
    }
  }

  /** A non-empty time part ends in the designator of its last component. */
  lemma TimeEnd(t: string, h: nat, m: nat, sec: nat)
    requires SpellsTime(t, h, m, sec) && t != []
    ensures t[|t| - 1] != '\n'
  {
    var i, j :| 0 <= i <= j <= |t| && Component(t[..i], 'H', h) && Component(t[i..j], 'M', m)
                && Component(t[j..], 'S', sec);
    if j < |t| {
      var p := t[j..];
      assert p[|p| - 1] == t[|t| - 1];
    } else if i < j {
      var p := t[i..j];
      assert p[|p| - 1] == t[|t| - 1];
    } else {
      var p := t[..i];
      assert p[|p| - 1] == t[|t| - 1];
    }
  }

  /** A text the period parser accepts has no final newline to drop. */
  lemma PeriodIsDuration(s: string)
    requires ParsePeriod(s).Some?
    ensures ParseDuration(s) == ParsePeriod(s)
  {
    DurationParsed(s);
    PeriodEnd(s, ParsePeriod(s).value);
  }

  /** One newline after a text that does not end in one changes nothing. */
  lemma FinalNewline(s: string)
    requires s == [] || s[|s| - 1] != '\n'
    ensures DurationToSecond(s + ['\n']) == DurationToSecond(s)
  {
    var t := s + ['\n'];
    assert t[..|t| - 1] == s;
  }

  /** A second final newline is always an error. */
  lemma TwoNewlines(s: string)
    requires s != [] && s[|s| - 1] == '\n'
    ensures DurationToSecond(s + ['\n']).None?
  {
    var t := s + ['\n'];
    assert t[..|t| - 1] == s;
    if ParsePeriod(s).Some? {
      DurationParsed(s);
      PeriodEnd(s, ParsePeriod(s).value);
    }
  }

  /** The parser accepts exactly the grammar, and reads what the text spells. */
  lemma DurationSpec(s: string)
    ensures ParseDuration(s).Some? <==> WellFormedDuration(s)
    ensures ParseDuration(s).Some? ==> Spells(s, ParseDuration(s).value)
    ensures forall d :: Spells(s, d) ==> ParseDuration(s) == Some(d)
  {
    var p := WithoutFinalNewline(s);
    PeriodSpec(p);
    assert ParseDuration(s) == ParsePeriod(p);
    forall d
      ensures Spells(s, d) <==> SpellsPeriod(p, d)
    {
      SpellsOfPeriod(s, d);
    }
  }

  /** A text spells a duration exactly when it does so without its final newline. */
  lemma SpellsOfPeriod(s: string, d: Duration)
    ensures Spells(s, d) <==> SpellsPeriod(WithoutFinalNewline(s), d)
  {
    if s != [] && s[|s| - 1] == '\n' && SpellsPeriod(s, d) {
      PeriodEnd(s, d);
    }
  }

  /**
   * `duration_to_second` raises exactly on a text outside the grammar or a duration beyond
   * `timedelta`'s range, and otherwise returns the seconds the text spells.
   */
  lemma DurationToSecondSpec(s: string)
    ensures DurationToSecond(s).Some? <==> exists d :: Spells(s, d) && FitsTimedelta(TotalSeconds(d))
    ensures !WellFormedDuration(s) ==> DurationToSecond(s).None?
    ensures forall d :: Spells(s, d) && DurationToSecond(s).Some? ==> DurationToSecond(s).value == TotalSeconds(d)
  {
    DurationSpec(s);
  }

  lemma {:induction false} DigitRunStops(a: string, b: string)
    requires AllDigits(a) && b != [] && !IsDigit(b[0])
    ensures DigitRun(a + b) == |a|
    decreases |a|
  {
    var s := a + b;
    if a == [] {
      assert s == b;
    } else {
      assert s[0] == a[0] && IsDigit(a[0]);
      assert s[1..] == a[1..] + b;
      assert AllDigits(a[1..]) by {
        forall i | 0 <= i < |a[1..]|
          ensures IsDigit(a[1..][i])
        {
          assert a[1..][i] == a[i + 1];
        }
      }
      DigitRunStops(a[1..], b);
      assert DigitRun(s) == 1 + DigitRun(s[1..]);
    }
  }

  /** A present component is read back with its value. */
  lemma DesignatedPresent(n: nat, des: char, rest: string)
    requires !IsDigit(des)
    ensures Designated(NatToDecimal(n) + [des] + rest, des) == Taken(Some(n), rest)
  {
    var a := NatToDecimal(n);
    var s := a + [des] + rest;
    assert s == a + ([des] + rest);
    DigitRunStops(a, [des] + rest);
    assert s[..|a|] == a;
    assert s[|a| + 1..] == rest;
    DecimalRoundTrip(n);
  }

  /** A component with another designator is not mistaken for this one. */
  lemma DesignatedOther(n: nat, other: char, des: char, rest: string)
    requires !IsDigit(other) && other != des
    ensures Designated(NatToDecimal(n) + [other] + rest, des).value.None?
  {
    var a := NatToDecimal(n);
    var s := a + [other] + rest;
    assert s == a + ([other] + rest);
    DigitRunStops(a, [other] + rest);
  }


  /** Reading the part of `o` back is `o`, when what follows is not a component `des`. */
  lemma DesignatedPart(o: Option<nat>, des: char, rest: string)
    requires !IsDigit(des)
    requires o.None? ==> Designated(rest, des).value.None?
    ensures Designated(Part(o, des) + rest, des) == Taken(o, rest)
  {
    if o.Some? {
      DesignatedPresent(o.value, des, rest);
    } else {
      assert Part(o, des) + rest == rest;
    }
  }

  /** Nothing after the time designator is a component `des` that comes before `o`'s. */
  lemma NotDesignatedParts(o1: Option<nat>, d1: char, o2: Option<nat>, d2: char, des: char)
    requires !IsDigit(d1) && !IsDigit(d2) && d1 != des && d2 != des
    ensures Designated(Part(o1, d1) + Part(o2, d2), des).value.None?
  {
    if o1.Some? {
      DesignatedOther(o1.value, d1, des, Part(o2, d2));
    } else if o2.Some? {
      assert Part(o1, d1) + Part(o2, d2) == NatToDecimal(o2.value) + [d2] + "";
      DesignatedOther(o2.value, d2, des, "");
    } else {
      assert Part(o1, d1) + Part(o2, d2) == "";
    }
  }

  /** Every time part spelled in the grammar is read back. */
  lemma TimeRoundTrip(h: Option<nat>, m: Option<nat>, s: Option<nat>)
    requires h.Some? || m.Some? || s.Some?
    ensures ParseTime(Part(h, 'H') + Part(m, 'M') + Part(s, 'S')) == Some(TimeParts(h, m, s))
  {
    var t := Part(h, 'H') + Part(m, 'M') + Part(s, 'S');
    assert t == Part(h, 'H') + (Part(m, 'M') + Part(s, 'S'));
    NotDesignatedParts(m, 'M', s, 'S', 'H');
    DesignatedPart(h, 'H', Part(m, 'M') + Part(s, 'S'));
    NotDesignatedParts(s, 'S', None, 'S', 'M');
    assert Part(s, 'S') + Part(None, 'S') == Part(s, 'S');
    DesignatedPart(m, 'M', Part(s, 'S'));
    assert Part(s, 'S') == Part(s, 'S') + "";
    DesignatedPart(s, 'S', "");
  }

  /** Every duration spelled in the grammar parses back to its components. */
  lemma FormatParseRoundTrip(d: Option<nat>, h: Option<nat>, m: Option<nat>, s: Option<nat>)
    requires d.Some? || h.Some? || m.Some? || s.Some?
    ensures ParseDuration(FormatDuration(d, h, m, s))
         == Some(Duration(d.GetOr(0), h.GetOr(0), m.GetOr(0), s.GetOr(0)))
  {
    FormatParsePeriod(d, h, m, s);
    PeriodIsDuration(FormatDuration(d, h, m, s));
  }

  lemma FormatParsePeriod(d: Option<nat>, h: Option<nat>, m: Option<nat>, s: Option<nat>)
    requires d.Some? || h.Some? || m.Some? || s.Some?
    ensures ParsePeriod(FormatDuration(d, h, m, s))
         == Some(Duration(d.GetOr(0), h.GetOr(0), m.GetOr(0), s.GetOr(0)))
  {
    var str := FormatDuration(d, h, m, s);
    var noTime := h.None? && m.None? && s.None?;
    var time := FormatTime(h, m, s);
    assert str[1..] == Part(d, 'D') + time;
    if noTime {
      assert str[1..] == Part(d, 'D') + "";
      DesignatedPart(d, 'D', "");
    } else {
      DesignatedPart(d, 'D', time);
      assert time[1..] == Part(h, 'H') + Part(m, 'M') + Part(s, 'S');
      TimeRoundTrip(h, m, s);
    }
  }

  /** The seconds of a spelled duration are days·86400 + hours·3600 + minutes·60 + seconds. */
  lemma FormatSeconds(d: Option<nat>, h: Option<nat>, m: Option<nat>, s: Option<nat>)
    requires d.Some? || h.Some? || m.Some? || s.Some?
    ensures var r := DurationToSecond(FormatDuration(d, h, m, s));
            var total := d.GetOr(0) * 86400 + h.GetOr(0) * 3600 + m.GetOr(0) * 60 + s.GetOr(0);
            && (r.Some? <==> FitsTimedelta(total))
            && (r.Some? ==> r.value == total)
  {
    FormatParseRoundTrip(d, h, m, s);
  }

  /** The spelling of a present component is a component of its value. */
  lemma PartComponent(o: Option<nat>, des: char)
    ensures Component(Part(o, des), des, o.GetOr(0))
  {
    if o.Some? {
      var a := NatToDecimal(o.value);
      var p := a + [des];
      assert p[..|p| - 1] == a;
      DecimalRoundTrip(o.value);
    }
  }

  /** A time designator with nothing after it adds nothing: "P[nD]T" is n days. */
  lemma TrailingTimeDesignator(d: Option<nat>)
    requires FitsTimedelta(d.GetOr(0) * 86400)
    ensures var r := DurationToSecond(['P'] + (Part(d, 'D') + ['T']));
            r.Some? && r.value == d.GetOr(0) * 86400
  {
    var t: string := [];
    assert t[..0] == [] && t[0..0] == [] && t[0..] == [];
    assert SpellsTime(t, 0, 0, 0);
    PartComponent(d, 'D');
    assert ['T'][1..] == t;
    DurationOfComponents(Part(d, 'D'), ['T'], Duration(d.GetOr(0), 0, 0, 0));
    PeriodIsDuration(['P'] + (Part(d, 'D') + ['T']));
  }

  /** The digit run of a string of digits is all of it. */
  lemma {:induction false} DigitRunAll(a: string)
    requires AllDigits(a)
    ensures DigitRun(a) == |a|
    decreases |a|
  {
    if a != [] {
      assert AllDigits(a[1..]) by {
        forall i | 0 <= i < |a[1..]|
          ensures IsDigit(a[1..][i])
        {
          assert a[1..][i] == a[i + 1];
        }
      }
      DigitRunAll(a[1..]);
    }
  }

  /** Digits with no designator after them are no component. */
  lemma UndesignatedDigits(a: string, des: char)
    requires AllDigits(a)
    ensures Designated(a, des) == Taken(None, a)
  {
    DigitRunAll(a);
  }

  /** A last number without its designator makes the whole duration an error. */
  lemma UndesignatedSeconds(h: Option<nat>, m: Option<nat>, n: nat)
    ensures DurationToSecond(['P', 'T'] + (Part(h, 'H') + (Part(m, 'M') + NatToDecimal(n)))).None?
  {
    var x := Part(h, 'H') + (Part(m, 'M') + NatToDecimal(n));
    PartComponent(h, 'H');
    PartComponent(m, 'M');
    UndesignatedTime(Part(h, 'H'), h.GetOr(0), Part(m, 'M'), m.GetOr(0), NatToDecimal(n));
    var a := NatToDecimal(n);
    LastOfConcat(Part(m, 'M'), a);
    LastOfConcat(Part(h, 'H'), Part(m, 'M') + a);
    TimeOnlyDuration(x);
  }

  /** The last character of `p + a` is that of `a`. */
  lemma LastOfConcat(p: string, a: string)
    requires a != []
    ensures (p + a)[|p + a| - 1] == a[|a| - 1]
  {
  }

  /** A rejected time part ending in a digit makes the whole text an error. */
  lemma TimeOnlyDuration(x: string)
    requires ParseTime(x).None? && x != [] && IsDigit(x[|x| - 1])
    ensures DurationToSecond(['P', 'T'] + x).None?
  {
    TimeOnly(x);
    LastOfConcat(['P', 'T'], x);
    NoFinalNewline(['P', 'T'] + x);
  }

  /** "PT" followed by a time part the parser rejects is rejected. */
  lemma TimeOnly(x: string)
    requires ParseTime(x).None?
    ensures ParsePeriod(['P', 'T'] + x).None?
  {
    var s := ['P', 'T'] + x;
    assert s[1..] == ['T'] + x;
    assert (['T'] + x)[1..] == x;
    assert Designated(['T'] + x, 'D') == Taken(None, ['T'] + x);
  }

  /** A time part whose last number has no designator is rejected. */
  lemma UndesignatedTime(ph: string, h: nat, pm: string, m: nat, a: string)
    requires Component(ph, 'H', h) && Component(pm, 'M', m) && AllDigits(a) && a != []
    ensures ParseTime(ph + (pm + a)).None?
  {
    UndesignatedDigits(a, 'H');
    UndesignatedDigits(a, 'M');
    UndesignatedDigits(a, 'S');
    if pm != [] {
      OtherAhead(pm, 'M', m, a, 'H');
    } else {
      assert pm + a == a;
    }
    ReadComponentAt(ph + (pm + a), ph, 'H', h, pm + a);
    ReadComponentAt(pm + a, pm, 'M', m, a);
  }

  /** The spelling of a one-digit component. */
  lemma OneDigitPart(n: nat, des: char)
    requires n < 10
    ensures Part(Some(n), des) == [DigitChar(n), des]
  {
  }

  /** One hour, two minutes and three seconds are 3723 seconds. */
  lemma HourMinuteSecondExample()
    ensures DurationToSecond("PT1H2M3S") == Some(3723)
  {
    var r := DurationToSecond(FormatDuration(None, Some(1), Some(2), Some(3)));
    FormatSeconds(None, Some(1), Some(2), Some(3));
    assert FitsTimedelta(3723);
    assert r.Some? && r.value == 3723;
    HourMinuteSecondSpelling();
  }

  lemma HourMinuteSecondSpelling()
    ensures FormatDuration(None, Some(1), Some(2), Some(3)) == "PT1H2M3S"
  {
    OneDigitPart(1, 'H');
    OneDigitPart(2, 'M');
    OneDigitPart(3, 'S');
    assert FormatTime(Some(1), Some(2), Some(3)) == ['T'] + (['1', 'H'] + ['2', 'M'] + ['3', 'S']);
  }

  /** One day is 86400 seconds. */
  lemma DayExample()
    ensures DurationToSecond("P1D") == Some(86400)
  {
  }

  /** Malformed codes are an error, never 0 seconds. */
  lemma MalformedExamples()
    ensures DurationToSecond("") == None
    ensures DurationToSecond("P") == None
    ensures DurationToSecond("PD") == None
    ensures DurationToSecond("1H2M3S") == None
  {
  }

  /** A time designator with no component after it is zero seconds. */
  lemma EmptyTimeExample()
    ensures DurationToSecond("PT") == Some(0)
  {
  }

  /** One final newline is let through, as by Python's `$`. */
  lemma FinalNewlineExample()
    ensures DurationToSecond("PT1H\n") == Some(3600)
  {
    var s := FormatDuration(None, Some(1), None, None);
    FormatSeconds(None, Some(1), None, None);
    FinalNewline(s);
    HourSpelling();
  }

  lemma HourSpelling()
    ensures FormatDuration(None, Some(1), None, None) + ['\n'] == "PT1H\n"
  {
    OneDigitPart(1, 'H');
  }

  /** A second final newline is not. */
  lemma TwoNewlinesExample()
    ensures DurationToSecond("PT1H\n\n") == None
  {
    TwoNewlines("PT1H\n");
    assert "PT1H\n" + ['\n'] == "PT1H\n\n";
  }

  /** "P" followed by a newline is still "P" alone. */
  lemma NewlineAfterPExample()
    ensures DurationToSecond("P\n") == None
  {
  }

  /** One day followed by an empty time part is still one day. */
  lemma DayEmptyTimeExample()
    ensures DurationToSecond("P1DT") == Some(86400)
  {
    TrailingTimeDesignator(Some(1));
    DayEmptyTimeSpelling();
  }

  lemma DayEmptyTimeSpelling()
    ensures ['P'] + (Part(Some(1), 'D') + ['T']) == "P1DT"
  {
    OneDigitPart(1, 'D');
  }

  /** `timedelta` holds 999999999 days, and one day more overflows. */
  lemma OverflowExamples()
    ensures var r := DurationToSecond(FormatDuration(Some(MaxTimedeltaDays), None, None, None));
            r.Some? && r.value == MaxTimedeltaDays * 86400
    ensures DurationToSecond(FormatDuration(Some(MaxTimedeltaDays + 1), None, None, None)).None?
  {
    FormatSeconds(Some(MaxTimedeltaDays), None, None, None);
    assert FitsTimedelta(MaxTimedeltaDays * 86400);
    FormatSeconds(Some(MaxTimedeltaDays + 1), None, None, None);
    assert !FitsTimedelta((MaxTimedeltaDays + 1) * 86400);
  }

  /** A trailing number without its designator is an error. */
  lemma MissingDesignatorExample()
    ensures DurationToSecond("PT1H2M3") == None
  {
    UndesignatedSeconds(Some(1), Some(2), 3);
    MissingDesignatorSpelling();
  }

  lemma MissingDesignatorSpelling()
    ensures ['P', 'T'] + (Part(Some(1), 'H') + (Part(Some(2), 'M') + NatToDecimal(3))) == "PT1H2M3"
  {
    OneDigitPart(1, 'H');
    OneDigitPart(2, 'M');
    assert NatToDecimal(3) == ['3'];
  }
}
