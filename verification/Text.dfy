/** The C and GLib text functions the device code is written with: strtol, g_strstrip and g_strsplit. */
module Text {
  import opened Decimal

  const LONG_MAX := 0x7FFF_FFFF_FFFF_FFFF
  const LONG_MIN := -0x8000_0000_0000_0000

  /** g_ascii_isspace: blank, tab, newline, form feed, carriage return. */
  predicate IsAsciiSpace(c: char) {
    c == ' ' || c == '\t' || c == '\n' || c == '\r' || c as int == 12
  }

  /** isspace in the C locale: a vertical tab as well. */
  predicate IsSpace(c: char) {
    IsAsciiSpace(c) || c as int == 11
  }

  /** What strtol does first. */
  function SkipSpaces(s: string): (r: string)
    ensures r == [] || !IsSpace(r[0])
  {
    if s != [] && IsSpace(s[0]) then SkipSpaces(s[1..]) else s
  }

  /** g_strchug. */
  function Chug(s: string): (r: string)
    ensures r == [] || !IsAsciiSpace(r[0])
  {
    if s != [] && IsAsciiSpace(s[0]) then Chug(s[1..]) else s
  }

  /** g_strchomp. */
  function Chomp(s: string): (r: string)
    ensures r == [] || !IsAsciiSpace(r[|r|-1])
  {
    if s != [] && IsAsciiSpace(s[|s|-1]) then Chomp(s[..|s|-1]) else s
  }

  /** g_strstrip. */
  function Strip(s: string): string {
    Chomp(Chug(s))
  }

  function LeadingDigits(s: string): (r: string)
    ensures AllDigits(r)
  {
    if s == [] || !IsDigit(s[0]) then [] else [s[0]] + LeadingDigits(s[1..])
  }

  function Clamp(n: int): (r: int)
    ensures LONG_MIN <= r <= LONG_MAX
  {
    if n < LONG_MIN then LONG_MIN else if n > LONG_MAX then LONG_MAX else n
  }

  /** strtol in base ten: spaces, a sign, digits, and whatever follows; out of range is cut off. */
  function Strtol(s: string): int {
    var t := SkipSpaces(s);
    if t != [] && t[0] == '-' then Clamp(0 - Number(LeadingDigits(t[1..])))
    else if t != [] && t[0] == '+' then Clamp(Number(LeadingDigits(t[1..])))
    else Clamp(Number(LeadingDigits(t)))
  }

  lemma {:induction false} LeadingAll(s: string)
    requires AllDigits(s)
    ensures LeadingDigits(s) == s
  {
    if s != [] {
      LeadingAll(s[1..]);
    }
  }

  lemma StripNothing(s: string)
    requires s == [] || (!IsSpace(s[0]) && !IsSpace(s[|s|-1]))
    ensures Strip(s) == s && SkipSpaces(s) == s
  {}

  /** Digits, with or without a minus sign, are read as the number they stand for. */
  lemma StrtolOfDigits(s: string)
    requires AllDigits(s)
    ensures Strtol(Strip(s)) == Clamp(Number(s))
    ensures Strtol(Strip("-" + s)) == Clamp(0 - Number(s))
  {
    hide Strip, SkipSpaces, LeadingDigits, Number, AllDigits, Clamp;
    var t := "-" + s;
    DigitsAreNoSpace(s);
    StripNothing(s);
    StripNothing(t);
    LeadingAll(s);
    assert t[1..] == s;
  }

  lemma DigitsAreNoSpace(s: string)
    requires AllDigits(s)
    ensures s != [] ==> !IsSpace(s[0]) && !IsSpace(s[|s|-1]) && s[0] != '-' && s[0] != '+'
    ensures !IsSpace(("-" + s)[0]) && !IsSpace(("-" + s)[|s|])
  {
    assert s != [] ==> IsDigit(s[0]) && IsDigit(s[|s|-1]) && ("-" + s)[|s|] == s[|s|-1];
  }

  lemma {:induction false} LeadingPart(s: string, rest: string)
    requires AllDigits(s) && (rest == [] || !IsDigit(rest[0]))
    ensures LeadingDigits(s + rest) == s
  {
    var t := s + rest;
    if s == [] {
      assert t == rest;
    } else {
      LeadingPart(s[1..], rest);
      assert t[1..] == s[1..] + rest;
    }
  }

  /** Reading a number stops at what is no digit. */
  lemma StrtolOfText(s: string, rest: string)
    requires AllDigits(s) && s != [] && (rest == [] || !IsDigit(rest[0]))
    ensures Strtol(s + rest) == Clamp(Number(s))
  {
    hide LeadingDigits, Number, Clamp;
    var t := s + rest;
    DigitsAreNoSpace(s);
    LeadingPart(s, rest);
    assert t[0] == s[0];
    assert SkipSpaces(t) == t;
  }

  lemma StrtolOfMinus(s: string, rest: string)
    requires AllDigits(s) && (rest == [] || !IsDigit(rest[0]))
    ensures Strtol("-" + s + rest) == Clamp(0 - Number(s))
  {
    hide LeadingDigits, Number, Clamp;
    var t := "-" + s + rest;
    LeadingPart(s, rest);
    assert t[0] == '-' && t[1..] == s + rest;
    assert SkipSpaces(t) == t;
  }

  lemma StrtolOfPlus(s: string, rest: string)
    requires AllDigits(s) && (rest == [] || !IsDigit(rest[0]))
    ensures Strtol("+" + s + rest) == Clamp(Number(s))
  {
    hide LeadingDigits, Number, Clamp;
    var t := "+" + s + rest;
    LeadingPart(s, rest);
    assert t[0] == '+' && t[1..] == s + rest;
    assert SkipSpaces(t) == t;
  }

  /** Stripping text that starts with a digit takes nothing away but the spaces at its end. */
  lemma {:induction false} StripText(s: string, rest: string) returns (kept: string)
    requires AllDigits(s) && s != []
    ensures kept <= rest && Strip(s + rest) == s + kept
    decreases |rest|
  {
    var t := s + rest;
    DigitsAreNoSpace(s);
    assert t[0] == s[0] && Chug(t) == t;
    if rest == [] {
      kept := rest;
      assert t == s;
    } else if IsAsciiSpace(rest[|rest|-1]) {
      var init := rest[..|rest|-1];
      kept := StripText(s, init);
      assert t[..|t|-1] == s + init && (s + init)[0] == s[0];
    } else {
      kept := rest;
      assert t[|t|-1] == rest[|rest|-1];
    }
  }

  /** A field that starts with a number is read as that number, whatever follows it, if that is no digit. */
  lemma FieldIsRead(s: string, rest: string)
    requires AllDigits(s) && s != [] && (rest == [] || !IsDigit(rest[0]))
    ensures Strtol(Strip(s + rest)) == Clamp(Number(s))
  {
    hide Strip, Strtol, Clamp, Number;
    var kept := StripText(s, rest);
    StrtolOfText(s, kept);
  }

  /** The pieces of s between separators. */
  function Fields(s: string, sep: char): (r: seq<string>)
    ensures r != []
  {
    if s == [] then [""]
    else var r := Fields(s[1..], sep);
         if s[0] == sep then [""] + r else [[s[0]] + r[0]] + r[1..]
  }

  /** g_strsplit with a separator of one character. */
  function Split(s: string, sep: char): seq<string> {
    if s == [] then [] else Fields(s, sep)
  }

  /** There is one field more than there are separators. */
  lemma {:induction false} FieldsCount(s: string, sep: char)
    ensures |Fields(s, sep)| == multiset(s)[sep] + 1
  {
    if s == [] {
    } else {
      FieldsCount(s[1..], sep);
      assert s == [s[0]] + s[1..];
    }
  }

  function Join(parts: seq<string>, sep: char): string {
    if parts == [] then "" else if |parts| == 1 then parts[0] else parts[0] + [sep] + Join(parts[1..], sep)
  }

  lemma {:induction false} FieldsAreParts(s: string, sep: char)
    ensures Join(Fields(s, sep), sep) == s
    ensures forall n :: 0 <= n < |Fields(s, sep)| ==> sep !in Fields(s, sep)[n]
  {
    if s != [] {
      FieldsAreParts(s[1..], sep);
      var r := Fields(s[1..], sep);
      if s[0] == sep {
        assert Fields(s, sep)[1..] == r;
      } else {
        assert Fields(s, sep)[1..] == r[1..];
      }
    }
  }

  lemma {:induction false} FieldsOne(a: string, sep: char)
    requires sep !in a
    ensures Fields(a, sep) == [a]
  {
    if a != [] {
      FieldsOne(a[1..], sep);
      assert [a[0]] + a[1..] == a;
    }
  }

  lemma {:induction false} FieldsSplit(a: string, t: string, sep: char)
    requires sep !in a
    ensures Fields(a + [sep] + t, sep) == [a] + Fields(t, sep)
  {
    var s := a + [sep] + t;
    if a == [] {
      assert s[1..] == t;
    } else {
      FieldsSplit(a[1..], t, sep);
      assert s[1..] == a[1..] + [sep] + t;
      assert [a[0]] + a[1..] == a;
    }
  }

  lemma FieldsOfThree(a: string, b: string, c: string)
    requires ':' !in a && ':' !in b && ':' !in c
    ensures Split(a + ":" + b + ":" + c, ':') == [a, b, c]
  {
    FieldsSplit(a, b + ":" + c, ':');
    FieldsSplit(b, c, ':');
    FieldsOne(c, ':');
    assert a + ":" + b + ":" + c == a + ":" + (b + ":" + c);
  }

  /** Pieces without the separator that are joined by it are what the text is split into. */
  lemma {:induction false} FieldsOfJoin(parts: seq<string>, sep: char)
    requires parts != [] && forall n :: 0 <= n < |parts| ==> sep !in parts[n]
    ensures Fields(Join(parts, sep), sep) == parts
  {
    if |parts| == 1 {
      FieldsOne(parts[0], sep);
    } else {
      FieldsOfJoin(parts[1..], sep);
      FieldsSplit(parts[0], Join(parts[1..], sep), sep);
    }
  }
}
