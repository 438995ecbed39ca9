/** Positions in a track: microseconds for D-Bus clients, H+:MM:SS for UPnP. */
module Duration {
  import opened Decimal
  import opened Text

  const USEC := 1_000_000
  const UINT := 0x1_0000_0000

  /** printf's %02u. */
  function Pad(n: nat): string {
    if n < 10 then "0" + Digits(n) else Digits(n)
  }

  function Clock(seconds: nat): string {
    Pad(seconds / 3600) + ":" + Pad((seconds / 60) % 60) + ":" + Pad(seconds % 60)
  }

  /** prv_int64_to_duration; the seconds are put into an unsigned int. */
  function Print(m: int): string {
    if m < 0 then "-" + Clock((-m / USEC) % UINT) else Clock((m / USEC) % UINT)
  }

  /** An int times an unsigned int. */
  function Term(part: string, unit: nat): (r: nat)
    ensures r < UINT
  {
    (Strtol(Strip(part)) * unit) % UINT
  }

  /** prv_duration_to_int64. */
  function Parse(s: string): int {
    var parts := Split(s, ':');
    if |parts| != 3 then 0 else (Term(parts[2], 1) + Term(parts[1], 60) + Term(parts[0], 3600)) * USEC
  }

  method Int64ToDuration(microSeconds: int) returns (duration: string)
    requires LONG_MIN < microSeconds <= LONG_MAX
    ensures duration == Print(microSeconds)
  {
    hide Clock;
    var m := microSeconds;
    if m < 0 {
      duration := "-";
      m := -m;
    } else {
      duration := "";
    }
    var seconds := (m / USEC) % UINT;
    var clock := AppendClock(seconds);
    assert "" + clock == clock;
    duration := duration + clock;
  }

  /** The one call of g_string_append_printf. */
  method AppendClock(seconds: nat) returns (clock: string)
    ensures clock == Clock(seconds)
  {
    clock := Pad(seconds / 3600) + ":" + Pad((seconds / 60) % 60) + ":" + Pad(seconds % 60);
  }

  method DurationToInt64(duration: string) returns (pos: int)
    ensures pos == Parse(duration)
  {
    var parts := Split(duration, ':');
    var count := |parts|;
    pos := 0;
    if count != 3 {
      return;
    }
    var i := 1;
    while count > 0
      invariant 0 <= count <= 3
      invariant i == if count == 3 then 1 else if count == 2 then 60 else if count == 1 then 3600 else 216000
      invariant pos == (if count <= 2 then Term(parts[2], 1) else 0) + (if count <= 1 then Term(parts[1], 60) else 0)
                     + (if count <= 0 then Term(parts[0], 3600) else 0)
    {
      count := count - 1;
      pos := pos + Term(parts[count], i);
      i := i * 60 % UINT;
    }
    pos := pos * USEC;
  }

  /** What is left of a position when the fraction of a second is cut off, as C's division does. */
  function WholeSeconds(m: int): int {
    if m < 0 then -(-m / USEC * USEC) else m / USEC * USEC
  }

  // ---------- numbers with leading zeros ----------

  lemma PadIsDigits(n: nat)
    ensures AllDigits(Pad(n)) && |Pad(n)| >= 2 && Number(Pad(n)) == n && ':' !in Pad(n)
  {
    NumberOfDigits(n);
    if n < 10 {
      assert Pad(n)[..1] == "0";
      assert Number("0") == 0 by { assert "0"[..0] == []; }
    } else {
      assert Digits(n) == Digits(n / 10) + [DIGITS[n % 10]];
    }
  }

  lemma {:induction false} DigitsOfNumber(s: string)
    requires AllDigits(s) && s != [] && (|s| == 1 || s[0] != '0')
    ensures Digits(Number(s)) == s && (|s| > 1 ==> Number(s) >= 10)
  {
    var init, last := s[..|s|-1], s[|s|-1];
    if |s| == 1 {
      assert Number(init) == 0;
    } else {
      DigitsOfNumber(init);
      assert |init| == 1 ==> Number(init) == DigitValue(s[0]) by {
        assert init[..0] == [];
      }
      Tenth(Number(init), DigitValue(last));
    }
  }

  lemma Tenth(a: nat, d: nat)
    requires d < 10
    ensures (10 * a + d) / 10 == a && (10 * a + d) % 10 == d
  {}

  /** Two digits, or more of which the first is not zero. */
  predicate Padded(s: string) {
    AllDigits(s) && |s| >= 2 && (|s| == 2 || s[0] != '0')
  }

  lemma PadOfNumber(s: string)
    requires Padded(s)
    ensures Pad(Number(s)) == s
  {
    if s[0] != '0' {
      DigitsOfNumber(s);
    } else {
      var t := s[1..];
      assert s[..1] == "0" && s == "0" + t && s[..|s|-1] == "0";
      assert Number("0") == 0 by { assert "0"[..0] == []; }
      assert Number(s) == DigitValue(s[1]);
      assert Number(t) == DigitValue(s[1]) by { assert t[..0] == []; }
      DigitsOfNumber(t);
    }
  }

  // ---------- there and back ----------

  lemma TermOfNumber(n: nat, unit: nat)
    requires n * unit < UINT && 0 < unit
    ensures Term(Pad(n), unit) == n * unit
  {
    hide Pad, Strtol, Strip, Number;
    PadIsDigits(n);
    StrtolOfDigits(Pad(n));
    assert n <= n * unit;
  }

  lemma ClockParts(seconds: nat)
    requires seconds < UINT
    ensures seconds == seconds / 3600 * 3600 + (seconds / 60) % 60 * 60 + seconds % 60
  {}

  lemma TermIsRead(s: string, rest: string, unit: nat)
    requires AllDigits(s) && s != [] && (rest == [] || !IsDigit(rest[0])) && Number(s) <= LONG_MAX
    ensures Term(s + rest, unit) == (Number(s) * unit) % UINT
  {
    hide Strip, Strtol, Number;
    FieldIsRead(s, rest);
  }

  /** Any text of three numbers, of however many digits, with whatever after the last that is neither a digit nor a
      colon, such as a fraction, is read as hours, minutes and seconds, each taken modulo 2^32 seconds. */
  lemma TimesAreRead(h: string, m: string, t: string, rest: string)
    requires AllDigits(h) && AllDigits(m) && AllDigits(t) && h != [] && m != [] && t != []
    requires (rest == [] || !IsDigit(rest[0])) && ':' !in rest
    requires Number(h) <= LONG_MAX && Number(m) <= LONG_MAX && Number(t) <= LONG_MAX
    ensures Parse(h + ":" + m + ":" + t + rest)
         == (Number(h) * 3600 % UINT + Number(m) * 60 % UINT + Number(t) % UINT) * USEC
  {
    hide Term, Split, Number, AllDigits;
    NoColon(h);
    NoColon(m);
    NoColon(t);
    FieldsOfThree(h, m, t + rest);
    assert h + ":" + m + ":" + t + rest == h + ":" + m + ":" + (t + rest);
    TermIsRead(h, "", 3600);
    TermIsRead(m, "", 60);
    TermIsRead(t, rest, 1);
    assert h + "" == h && m + "" == m;
  }

  lemma NoColon(s: string)
    requires AllDigits(s)
    ensures ':' !in s
  {}

  /** So a time of less than 2^32 seconds is read as that many. */
  lemma ShortTimesAreRead(h: string, m: string, t: string, rest: string)
    requires AllDigits(h) && AllDigits(m) && AllDigits(t) && h != [] && m != [] && t != []
    requires (rest == [] || !IsDigit(rest[0])) && ':' !in rest
    requires Number(h) * 3600 + Number(m) * 60 + Number(t) < UINT
    ensures Parse(h + ":" + m + ":" + t + rest) == (Number(h) * 3600 + Number(m) * 60 + Number(t)) * USEC
  {
    hide Parse, Number, AllDigits;
    TimesAreRead(h, m, t, rest);
    Small(Number(h) * 3600);
    Small(Number(m) * 60);
    Small(Number(t));
  }

  lemma Small(n: nat)
    ensures n < UINT ==> n % UINT == n
  {}

  /** Text with any other number of fields is read as the start. */
  lemma OthersAreZero(s: string)
    requires multiset(s)[':'] != 2
    ensures Parse(s) == 0
  {
    FieldsCount(s, ':');
  }

  /** Reading what was written of a number of seconds that fits an unsigned int gives it back. */
  lemma ParseClock(seconds: nat)
    requires seconds < UINT
    ensures Parse(Clock(seconds)) == seconds * USEC
  {
    var h, m, s := seconds / 3600, (seconds / 60) % 60, seconds % 60;
    PadIsDigits(h);
    PadIsDigits(m);
    PadIsDigits(s);
    FieldsOfThree(Pad(h), Pad(m), Pad(s));
    ClockParts(seconds);
    TermOfNumber(h, 3600);
    TermOfNumber(m, 60);
    TermOfNumber(s, 1);
  }

  /** With a minus sign in front, the hours count backwards from 2^32 and the rest forwards. */
  lemma ParseMinusClock(seconds: nat)
    requires seconds < UINT
    ensures Parse("-" + Clock(seconds)) ==
      (if seconds < 3600 then seconds else UINT - seconds / 3600 * 3600 + seconds % 3600) * USEC
  {
    hide Pad, Term, Split, Number;
    var h, m, s := seconds / 3600, (seconds / 60) % 60, seconds % 60;
    PadIsDigits(h);
    PadIsDigits(m);
    PadIsDigits(s);
    FieldsOfThree("-" + Pad(h), Pad(m), Pad(s));
    assert "-" + Clock(seconds) == "-" + Pad(h) + ":" + Pad(m) + ":" + Pad(s);
    TermOfNumber(m, 60);
    TermOfNumber(s, 1);
    MinusTerm(h);
    ClockParts(seconds);
  }

  lemma MinusTerm(h: nat)
    requires h * 3600 < UINT
    ensures Term("-" + Pad(h), 3600) == if h == 0 then 0 else UINT - h * 3600
  {
    hide Pad, Strtol, Strip, Number;
    PadIsDigits(h);
    StrtolOfDigits(Pad(h));
    assert Strtol(Strip("-" + Pad(h))) == 0 - h;
    assert h > 0 ==> (0 - h) * 3600 == -1 * UINT + (UINT - h * 3600);
  }

  /** A position survives being written and read again, but for the fraction of a second, exactly if it is
      less than 2^32 seconds and more than -1 second. */
  lemma RoundTrip(m: int)
    requires LONG_MIN < m <= LONG_MAX
    ensures Parse(Print(m)) == WholeSeconds(m) <==> -USEC < m < UINT * USEC
  {
    hide Parse, Clock;
    if m < 0 {
      ParseMinusClock((0 - m) / USEC % UINT);
      Quotient(0 - m);
    } else {
      ParseClock(m / USEC % UINT);
      Quotient(m);
    }
  }

  lemma Quotient(m: nat)
    ensures m < USEC <==> m / USEC == 0
    ensures m < UINT * USEC <==> m / USEC < UINT
    ensures m / USEC < UINT <==> m / USEC % UINT == m / USEC
  {}

  /** A position before the start is written as the one after it with a minus sign in front, and when it is read
      again the hours count backwards from 2^32 seconds and the rest forwards. */
  lemma NegativesAreRead(m: nat)
    requires 0 < m <= LONG_MAX
    ensures Print(0 - m) == "-" + Print(m)
    ensures
      var seconds := m / USEC % UINT;
      Parse(Print(0 - m)) == (if seconds < 3600 then seconds else UINT - seconds / 3600 * 3600 + seconds % 3600) * USEC
  {
    hide Parse, Clock;
    ParseMinusClock(m / USEC % UINT);
  }

  /** One second before the start comes back as one second after it, and 2^32 seconds as none. */
  lemma PositionsLost()
    ensures Print(-USEC) == "-00:00:01" && Parse(Print(-USEC)) == USEC != WholeSeconds(-USEC)
    ensures Print(UINT * USEC) == "00:00:00" && Parse(Print(UINT * USEC)) == 0 != WholeSeconds(UINT * USEC)
  {
    hide Parse, Clock;
    ParseMinusClock(1);
    ParseClock(0);
    FirstClocks();
  }

  lemma FirstClocks()
    ensures Clock(0) == "00:00:00" && Clock(1) == "00:00:01"
  {
    assert Pad(0) == "00" && Pad(1) == "01";
  }

  /** Beyond that, the seconds are taken modulo 2^32. */
  lemma RoundTripModulo(m: nat)
    requires m <= LONG_MAX
    ensures Parse(Print(m)) == (m / USEC) % UINT * USEC
  {
    ParseClock((m / USEC) % UINT);
  }

  /** H+:MM:SS with two digits at least for the hours, minutes and seconds below sixty, and no more than
      fits an unsigned int. */
  predicate Canonical(s: string) {
    var parts := Split(s, ':');
    && |parts| == 3 && Padded(parts[0]) && Padded(parts[1]) && Padded(parts[2])
    && Number(parts[1]) < 60 && Number(parts[2]) < 60
    && Number(parts[0]) * 3600 + Number(parts[1]) * 60 + Number(parts[2]) < UINT
  }

  /** What a canonical text says. */
  function Seconds(s: string): nat
    requires Canonical(s)
  {
    Number(Split(s, ':')[0]) * 3600 + Number(Split(s, ':')[1]) * 60 + Number(Split(s, ':')[2])
  }

  lemma ParseCanonical(s: string)
    requires Canonical(s)
    ensures Parse(s) == Seconds(s) * USEC && Seconds(s) < UINT
  {
    hide Pad, Term, Split, Number;
    var parts := Split(s, ':');
    PadOfNumber(parts[0]);
    PadOfNumber(parts[1]);
    PadOfNumber(parts[2]);
    TermOfNumber(Number(parts[0]), 3600);
    TermOfNumber(Number(parts[1]), 60);
    TermOfNumber(Number(parts[2]), 1);
  }

  lemma ClockCanonical(s: string)
    requires Canonical(s)
    ensures Clock(Seconds(s)) == s
  {
    hide Pad, Split, Number;
    var parts := Split(s, ':');
    PadOfNumber(parts[0]);
    PadOfNumber(parts[1]);
    PadOfNumber(parts[2]);
    ThreeParts(s);
    ClockOf(Number(parts[0]), Number(parts[1]), Number(parts[2]));
  }

  /** Writing what was read of a canonical text gives it back. */
  lemma PrintParse(s: string)
    requires Canonical(s)
    ensures Print(Parse(s)) == s
  {
    hide Canonical, Parse, Clock;
    ParseCanonical(s);
    ClockCanonical(s);
  }

  lemma ThreeParts(s: string)
    requires |Split(s, ':')| == 3
    ensures s == Split(s, ':')[0] + ":" + Split(s, ':')[1] + ":" + Split(s, ':')[2]
  {
    hide Fields;
    var parts := Split(s, ':');
    FieldsAreParts(s, ':');
    var two, one := parts[1..], parts[1..][1..];
    assert one == [parts[2]] && two[0] == parts[1];
    assert Join(one, ':') == parts[2] && Join(two, ':') == parts[1] + ":" + Join(one, ':');
    assert Join(parts, ':') == parts[0] + ":" + Join(two, ':');
  }

  lemma ClockOf(h: nat, m: nat, t: nat)
    requires m < 60 && t < 60
    ensures var n := h * 3600 + m * 60 + t; n / 3600 == h && (n / 60) % 60 == m && n % 60 == t
  {}

  lemma PaddedPad(n: nat)
    ensures Padded(Pad(n)) && (n < 100 ==> |Pad(n)| == 2)
  {
    PadIsDigits(n);
    if n >= 10 { FirstDigit(n); }
  }

  lemma {:induction false} FirstDigit(n: nat)
    ensures n > 0 ==> Digits(n)[0] != '0'
    ensures 10 <= n < 100 ==> |Digits(n)| == 2
  {
    if n >= 10 {
      FirstDigit(n / 10);
    }
  }

  /** The texts written for positions from zero on are exactly the canonical ones: on them, writing and
      reading undo each other. */
  lemma CanonicalIsPrinted(s: string)
    ensures Canonical(s) <==> exists m :: 0 <= m < UINT * USEC && Print(m) == s
  {
    if Canonical(s) {
      PrintParse(s);
      assert 0 <= Parse(s) < UINT * USEC by { ParseCanonical(s); }
    }
    forall m | 0 <= m < UINT * USEC && Print(m) == s
      ensures Canonical(s)
    {
      PrintIsCanonical(m);
    }
  }

  lemma PrintIsCanonical(m: int)
    requires 0 <= m < UINT * USEC
    ensures Canonical(Print(m))
  {
    hide Pad, Split, Number, Padded;
    var seconds := m / USEC;
    Quotient(m);
    var h, mi, t := seconds / 3600, (seconds / 60) % 60, seconds % 60;
    PadIsDigits(h);
    PadIsDigits(mi);
    PadIsDigits(t);
    PaddedPad(h);
    PaddedPad(mi);
    PaddedPad(t);
    FieldsOfThree(Pad(h), Pad(mi), Pad(t));
    ClockParts(seconds);
  }
}
