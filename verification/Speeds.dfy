/** Play speeds: fractions such as 2, 1/2 or -3/4 on the UPnP side, numbers rounded to a hundredth for D-Bus. */
module Speeds {
  import opened Text
  import Decimal

  // ---------- fractions ----------

  function Numerator(s: string): int {
    Strtol(s)
  }

  /** What follows the first slash; one if there is none. */
  function Denominator(s: string): int {
    if '/' in s then Strtol(AfterSlash(s)) else 1
  }

  function AfterSlash(s: string): string {
    if s == [] then [] else if s[0] == '/' then s[1..] else AfterSlash(s[1..])
  }

  predicate Valid(s: string) {
    Numerator(s) != 0 && Denominator(s) != 0
  }

  function Value(s: string): real
    requires Denominator(s) != 0
  {
    Numerator(s) as real / Denominator(s) as real
  }

  /** Positive, zero or negative as a is greater than, equal to or less than b. */
  function Cross(a: string, b: string): int {
    Numerator(a) * Denominator(b) - Numerator(b) * Denominator(a)
  }

  /** An int made of a long. */
  function ToInt(n: int): (r: int)
    ensures -0x8000_0000 <= r < 0x8000_0000
    ensures -0x8000_0000 <= n < 0x8000_0000 ==> r == n
  {
    (n + 0x8000_0000) % 0x1_0000_0000 - 0x8000_0000
  }

  /** prv_compare_rationals: the difference of the cross products, cut down to an int. */
  function Compare(a: string, b: string): int {
    ToInt(Cross(a, b))
  }

  /** The int made of c has the sign of c; it has the opposite sign. */
  predicate SignKept(c: int) {
    if c > 0 then 0 < c % 0x1_0000_0000 < 0x8000_0000
    else if c < 0 then 0x8000_0000 <= c % 0x1_0000_0000
    else true
  }

  predicate SignFlipped(c: int) {
    if c > 0 then 0x8000_0000 <= c % 0x1_0000_0000
    else if c < 0 then 0 < c % 0x1_0000_0000 < 0x8000_0000
    else true
  }

  lemma SignOfInt(c: int)
    ensures ToInt(c) > 0 <==> 0 < c % 0x1_0000_0000 < 0x8000_0000
    ensures ToInt(c) < 0 <==> 0x8000_0000 <= c % 0x1_0000_0000
    ensures -0x8000_0000 <= c < 0x8000_0000 ==> SignKept(c)
  {}

  lemma RealOrder(an: int, ad: int, bn: int, bd: int)
    requires ad > 0 && bd > 0
    ensures an as real / ad as real < bn as real / bd as real <==> an * bd < bn * ad
  {
    var x, y := an as real / ad as real, bn as real / bd as real;
    var d := ad as real * bd as real;
    assert x * d == an as real * bd as real by { Scale(an as real, ad as real, bd as real); }
    assert y * d == bn as real * ad as real by { Scale(bn as real, bd as real, ad as real); }
    assert (an * bd) as real == an as real * bd as real;
    assert (bn * ad) as real == bn as real * ad as real;
    LessScaled(x, y, d);
  }

  lemma Scale(n: real, d: real, k: real)
    requires d != 0.0
    ensures n / d * (d * k) == n * k && n / d * (k * d) == n * k
  {
    assert n / d * d == n;
    assert n / d * (d * k) == (n / d * d) * k;
    assert k * d == d * k;
  }

  lemma LessScaled(x: real, y: real, d: real)
    requires d > 0.0
    ensures x < y <==> x * d < y * d
  {
    assert (y - x) * d == y * d - x * d;
  }

  /** The comparison of a and b tells which of the numbers is greater. */
  predicate Ordered(a: string, b: string)
    requires Denominator(a) != 0 && Denominator(b) != 0
  {
    (Compare(a, b) > 0 <==> Value(a) > Value(b)) && (Compare(a, b) < 0 <==> Value(a) < Value(b))
  }

  lemma Negate(n: int, d: int)
    requires d != 0
    ensures n as real / d as real == (-n) as real / (-d) as real
  {
    var q := n as real / d as real;
    assert q * (-d) as real == (-n) as real;
  }

  /** The cross product has the sign of the difference if the denominators have the same sign, and the
      opposite one otherwise. */
  lemma CrossIsDifference(a: string, b: string)
    requires Denominator(a) != 0 && Denominator(b) != 0
    ensures (Denominator(a) > 0) == (Denominator(b) > 0) ==>
      (Cross(a, b) > 0 <==> Value(a) > Value(b)) && (Cross(a, b) < 0 <==> Value(a) < Value(b))
    ensures (Denominator(a) > 0) != (Denominator(b) > 0) ==>
      (Cross(a, b) > 0 <==> Value(a) < Value(b)) && (Cross(a, b) < 0 <==> Value(a) > Value(b))
  {
    var an, ad := Numerator(a), Denominator(a);
    var bn, bd := Numerator(b), Denominator(b);
    Negate(an, ad);
    Negate(bn, bd);
    var (xn, xd) := if ad > 0 then (an, ad) else (-an, -ad);
    var (yn, yd) := if bd > 0 then (bn, bd) else (-bn, -bd);
    RealOrder(xn, xd, yn, yd);
    RealOrder(yn, yd, xn, xd);
    Signs(an, ad, bn, bd);
  }

  lemma Signs(an: int, ad: int, bn: int, bd: int)
    ensures (-an) * bd == -(an * bd) && an * (-bd) == -(an * bd) && (-an) * (-bd) == an * bd
    ensures (-bn) * ad == -(bn * ad) && bn * (-ad) == -(bn * ad) && (-bn) * (-ad) == bn * ad
  {}

  /** Comparing tells which number is greater exactly if cutting the cross product down to an int keeps its
      sign, or, where just one denominator is negative, turns it round. */
  lemma CompareIsOrder(a: string, b: string)
    requires Denominator(a) != 0 && Denominator(b) != 0
    ensures Ordered(a, b) <==>
      if (Denominator(a) > 0) == (Denominator(b) > 0) then SignKept(Cross(a, b)) else SignFlipped(Cross(a, b))
  {
    hide Numerator, Denominator, Cross, ToInt, Value;
    CrossIsDifference(a, b);
    SignOfInt(Cross(a, b));
  }

  lemma WholeNumber(n: nat)
    requires n <= LONG_MAX
    ensures Numerator(Decimal.Digits(n)) == n && Denominator(Decimal.Digits(n)) == 1
  {
    var s := Decimal.Digits(n);
    DigitsAreNoSpace(s);
    StripNothing(s);
    StrtolOfDigits(s);
    Decimal.NumberOfDigits(n);
    assert '/' !in s;
  }

  /** Where it does not fit, it can be wrong: three thousand million is taken to be less than one. */
  lemma CompareOverflows()
    ensures
      var a, b := Decimal.Digits(3_000_000_000), Decimal.Digits(1);
      Denominator(a) == Denominator(b) == 1 && Value(a) > Value(b) && Compare(a, b) < 0
  {
    hide Decimal.Digits, Numerator, Denominator;
    WholeNumber(3_000_000_000);
    WholeNumber(1);
  }

  /** A negative denominator misleads it, be the difference as small as it will: 1 is taken to be less than
      1/-2. */
  lemma NegativeDenominatorMisleads()
    ensures
      var a, b := Decimal.Digits(1), Decimal.Digits(1) + "/-" + Decimal.Digits(2);
      Denominator(a) == 1 && Denominator(b) == -2 && Value(a) > Value(b) && Compare(a, b) < 0
  {
    hide Decimal.Digits, Numerator, Denominator, Strtol;
    WholeNumber(1);
    NegativeHalf();
  }

  lemma NegativeHalf()
    ensures
      var b := Decimal.Digits(1) + "/-" + Decimal.Digits(2);
      Numerator(b) == 1 && Denominator(b) == -2
  {
    hide Decimal.Digits, Strtol;
    var one, two := Decimal.Digits(1), Decimal.Digits(2);
    var b := one + "/-" + two;
    StrtolOfText(one, "/-" + two);
    Slashed(one, "-" + two);
    assert b == one + ("/-" + two) == one + "/" + ("-" + two);
    assert '/' !in one && '/' in b;
    StrtolOfDigits(two);
    MinusIsNoSpace(two);
    Decimal.NumberOfDigits(1);
    Decimal.NumberOfDigits(2);
  }

  lemma MinusIsNoSpace(s: string)
    requires Decimal.AllDigits(s)
    ensures Strtol("-" + s) == Strtol(Strip("-" + s))
  {
    DigitsAreNoSpace(s);
    StripNothing("-" + s);
  }

  lemma {:induction false} Slashed(a: string, b: string)
    requires '/' !in a
    ensures AfterSlash(a + "/" + b) == b
  {
    var s := a + "/" + b;
    if a == [] {
      assert s[1..] == b;
    } else {
      Slashed(a[1..], b);
      assert s[1..] == a[1..] + "/" + b;
    }
  }

  // ---------- rounding ----------

  /** round(x / 0.01) * 0.01, halves going away from zero. */
  function Rounded(x: real): real {
    if x >= 0.0 then (x * 100.0 + 0.5).Floor as real / 100.0 else -((-x * 100.0 + 0.5).Floor as real / 100.0)
  }

  lemma RoundedClose(x: real)
    ensures -0.005 <= Rounded(x) - x <= 0.005
  {}

  lemma FloorMonotone(x: real, y: real)
    requires x <= y
    ensures x.Floor <= y.Floor
  {}

  lemma RoundedMonotone(x: real, y: real)
    requires x <= y
    ensures Rounded(x) <= Rounded(y)
  {
    if x >= 0.0 {
      FloorMonotone(x * 100.0 + 0.5, y * 100.0 + 0.5);
    } else if y < 0.0 {
      FloorMonotone(-y * 100.0 + 0.5, -x * 100.0 + 0.5);
    }
  }

  /** What is rounded is a whole number of hundredths, and the nearest; of two that are as near, the one further from
      zero. */
  lemma RoundedIsNearest(x: real) returns (n: int)
    ensures Rounded(x) == n as real / 100.0 && -0.005 <= Rounded(x) - x <= 0.005
    ensures x >= 0.0 ==> Rounded(x) - x > -0.005
    ensures x < 0.0 ==> Rounded(x) - x < 0.005
  {
    n := if x >= 0.0 then (x * 100.0 + 0.5).Floor else -((-x * 100.0 + 0.5).Floor);
  }

  /** prv_rational_to_double with the precision the callers use. */
  function ToDouble(s: string): real {
    if Valid(s) then Rounded(Value(s)) else 0.0
  }

  // ---------- the published speeds and their range ----------

  /** The allowed values that are worth publishing, in order. */
  function Usable(list: seq<string>): (r: seq<string>)
    ensures forall s :: s in r <==> s in list && Valid(s)
  {
    if list == [] then [] else if Valid(list[0]) then [list[0]] + Usable(list[1..]) else Usable(list[1..])
  }

  function Published(strings: seq<string>): (r: seq<real>)
    ensures |r| == |strings|
    ensures forall n :: 0 <= n < |strings| ==> r[n] == ToDouble(strings[n])
  {
    seq(|strings|, n requires 0 <= n < |strings| => ToDouble(strings[n]))
  }

  lemma UsableNext(list: seq<string>)
    requires list != []
    ensures Usable(list) == (if Valid(list[0]) then [list[0]] else []) + Usable(list[1..])
  {
    hide Valid;
    assert [] + Usable(list[1..]) == Usable(list[1..]);
  }

  /** The published values are the valid ones of the list, in its order and as often as they are there. */
  lemma {:induction false} UsableInOrder(a: seq<string>, b: seq<string>)
    ensures Usable(a + b) == Usable(a) + Usable(b)
  {
    hide Valid, Usable;
    if a == [] {
      assert a + b == b;
      assert Usable([]) == [] by { NothingUsable(); }
    } else {
      UsableInOrder(a[1..], b);
      UsableNext(a);
      UsableNext(a + b);
      assert (a + b)[1..] == a[1..] + b;
      var first := if Valid(a[0]) then [a[0]] else [];
      assert first + (Usable(a[1..]) + Usable(b)) == (first + Usable(a[1..])) + Usable(b);
    }
  }

  lemma NothingUsable()
    ensures Usable([]) == []
  {}

  /** The search for the least and the greatest, as one pass does it from where it is. */
  function Scan(lo: string, hi: string, list: seq<string>): (string, string)
    decreases |list|
  {
    if list == [] then (lo, hi)
    else
      var s := list[0];
      if !Valid(s) then Scan(lo, hi, list[1..])
      else if Compare(lo, s) > 0 then Scan(s, hi, list[1..])
      else if Compare(hi, s) < 0 then Scan(lo, s, list[1..])
      else Scan(lo, hi, list[1..])
  }

  /** prv_get_rates_values for a list that is there; the search starts from the first entry, whatever it is. */
  method GetRatesValues(allowed: seq<string>) returns (mpris: seq<real>, upnp: seq<string>, lo: string, hi: string)
    requires allowed != []
    ensures upnp == Usable(allowed) && mpris == Published(upnp)
    ensures (lo, hi) == Scan(allowed[0], allowed[0], allowed)
  {
    hide Valid, Compare, ToDouble;
    mpris, upnp := [], [];
    lo, hi := allowed[0], allowed[0];
    var n := 0;
    while n < |allowed|
      invariant 0 <= n <= |allowed|
      invariant upnp + Usable(allowed[n..]) == Usable(allowed)
      invariant mpris == Published(upnp)
      invariant Scan(lo, hi, allowed[n..]) == Scan(allowed[0], allowed[0], allowed)
    {
      var s := allowed[n];
      assert allowed[n..][0] == s && allowed[n..][1..] == allowed[n + 1..];
      if Valid(s) {
        assert upnp + ([s] + Usable(allowed[n + 1..])) == upnp + [s] + Usable(allowed[n + 1..]);
        upnp := upnp + [s];
        mpris := mpris + [ToDouble(s)];
        if Compare(lo, s) > 0 {
          lo := s;
        } else if Compare(hi, s) < 0 {
          hi := s;
        }
      }
      n := n + 1;
    }
    assert upnp + [] == upnp;
  }

  /** What the range claim needs of a list: no negative denominators, and differences that keep their sign as
      ints. */
  predicate Tame(list: seq<string>) {
    && (forall a :: a in list ==> Denominator(a) >= 0)
    && (forall a, b :: a in list && b in list ==> SignKept(Cross(a, b)))
  }

  predicate NotAbove(a: string, b: string) { Cross(a, b) <= 0 }

  predicate IsLeast(s: string, list: seq<string>) {
    s in list && Valid(s) && forall t :: t in list && Valid(t) ==> NotAbove(s, t)
  }

  predicate IsGreatest(s: string, list: seq<string>) {
    s in list && Valid(s) && forall t :: t in list && Valid(t) ==> NotAbove(t, s)
  }

  // ---------- the one pass ----------

  lemma Times(x: int, y: int, k: nat)
    requires x <= y
    ensures x * k <= y * k
    ensures x < y && k > 0 ==> x * k < y * k
  {}

  lemma Cancel(x: int, y: int, k: nat)
    requires k > 0
    ensures k * x <= k * y ==> x <= y
    ensures k * x > k * y ==> x > y
  {
    if x > y {
      Times(y, x, k);
    } else {
      Times(x, y, k);
    }
  }

  lemma Regroup(an: int, ad: int, mn: int, md: int, bn: int, bd: int)
    ensures an * md * bd == md * (an * bd) && bn * md * ad == md * (bn * ad) && mn * ad * bd == mn * bd * ad
  {}

  lemma Products(an: int, ad: int, mn: int, md: int, bn: int, bd: int)
    requires ad >= 0 && md > 0 && bd >= 0
    requires an * md <= mn * ad && mn * bd <= bn * md
    ensures an * bd <= bn * ad
  {
    Times(an * md, mn * ad, bd);
    Times(mn * bd, bn * md, ad);
    Regroup(an, ad, mn, md, bn, bd);
    Cancel(an * bd, bn * ad, md);
  }

  lemma StrictProducts(an: int, ad: int, mn: int, md: int, bn: int, bd: int)
    requires ad >= 0 && md > 0 && bd >= 0 && (ad > 0 || bd > 0)
    requires an * md > mn * ad && mn * bd > bn * md
    ensures an * bd > bn * ad
  {
    Times(mn * ad, an * md, bd);
    Times(bn * md, mn * bd, ad);
    Regroup(an, ad, mn, md, bn, bd);
    Cancel(an * bd, bn * ad, md);
  }

  /** A fraction with a positive denominator can stand in the middle. */
  lemma Between(a: string, m: string, b: string)
    requires Denominator(a) >= 0 && Denominator(m) > 0 && Denominator(b) >= 0
    ensures NotAbove(a, m) && NotAbove(m, b) ==> NotAbove(a, b)
    ensures (Denominator(a) > 0 || Denominator(b) > 0) && !NotAbove(a, m) && !NotAbove(m, b) ==> !NotAbove(a, b)
  {
    var an, ad, mn, md := Numerator(a), Denominator(a), Numerator(m), Denominator(m);
    var bn, bd := Numerator(b), Denominator(b);
    if an * md <= mn * ad && mn * bd <= bn * md {
      Products(an, ad, mn, md, bn, bd);
    } else if (ad > 0 || bd > 0) && an * md > mn * ad && mn * bd > bn * md {
      StrictProducts(an, ad, mn, md, bn, bd);
    }
  }

  /** Against a zero denominator only the sign of the numerator counts. */
  lemma AgainstZero(f: string, s: string)
    requires Denominator(f) == 0 && Denominator(s) > 0
    ensures NotAbove(f, s) <==> Numerator(f) <= 0
    ensures NotAbove(s, f) <==> Numerator(f) >= 0
  {
    hide Numerator, Denominator;
    var n, d := Numerator(f), Denominator(s);
    assert Cross(f, s) == n * d && Cross(s, f) == -(n * d);
    SignTimes(n, d);
  }

  lemma SignTimes(n: int, d: int)
    requires d > 0
    ensures (n > 0 <==> n * d > 0) && (n < 0 <==> n * d < 0)
  {}

  /** When part of the list is done: lo is below everything done, and has moved from the first entry f only
      to something below it; hi the other way round. */
  ghost predicate Bounds(f: string, lo: string, hi: string, done: set<string>) {
    && (forall t :: t in done ==> NotAbove(lo, t) && NotAbove(t, hi))
    && (lo == f || (lo in done && !NotAbove(f, lo)))
    && (hi == f || (hi in done && !NotAbove(hi, f)))
  }

  /** Entries that have been looked at and are worth publishing. */
  ghost predicate Good(f: string, done: set<string>) {
    Denominator(f) >= 0 && forall t :: t in done ==> Valid(t) && Denominator(t) > 0
  }

  lemma LowerBound(f: string, lo: string, hi: string, done: set<string>, s: string)
    requires Good(f, done + {s}) && Bounds(f, lo, hi, done) && !NotAbove(lo, s)
    ensures Bounds(f, s, hi, done + {s})
  {
    hide Cross, NotAbove, Valid;
    assert s in done + {s};
    Self(s);
    forall t | t in done
      ensures NotAbove(s, t)
    {
      if Denominator(lo) > 0 {
        Below(lo, s);
        Between(s, lo, t);
      } else {
        LoIsFirst(f, lo, done);
        AgainstZero(f, t);
        AgainstZero(f, s);
      }
    }
    if lo != f { Between(f, lo, s); }
    HiStays(f, lo, hi, done, s);
  }

  lemma Self(s: string)
    ensures NotAbove(s, s)
  {}

  lemma Below(lo: string, s: string)
    requires !NotAbove(lo, s)
    ensures NotAbove(s, lo)
  {}

  lemma LoIsFirst(f: string, x: string, done: set<string>)
    requires Good(f, done) && (x == f || x in done) && Denominator(x) <= 0
    ensures x == f && Denominator(f) == 0
  {}

  /** What is below lo is not above hi. */
  lemma HiStays(f: string, lo: string, hi: string, done: set<string>, s: string)
    requires Good(f, done + {s}) && Bounds(f, lo, hi, done) && !NotAbove(lo, s)
    ensures NotAbove(s, hi)
  {
    hide Cross, NotAbove, Valid;
    assert s in done + {s};
    if hi == f {
      if lo != f { Between(f, lo, s); }
      Below(f, s);
    } else if lo != f {
      Below(lo, s);
      Between(s, lo, hi);
    } else if Denominator(f) > 0 {
      Below(f, s);
      Below(hi, f);
      Between(s, f, hi);
    } else {
      AgainstZero(f, hi);
      AgainstZero(f, s);
    }
  }

  lemma UpperBound(f: string, lo: string, hi: string, done: set<string>, s: string)
    requires Good(f, done + {s}) && Bounds(f, lo, hi, done) && NotAbove(lo, s) && !NotAbove(s, hi)
    ensures Bounds(f, lo, s, done + {s})
  {
    hide Cross, NotAbove, Valid;
    assert s in done + {s};
    Self(s);
    forall t | t in done
      ensures NotAbove(t, s)
    {
      if Denominator(hi) > 0 {
        Below(s, hi);
        Between(t, hi, s);
      } else {
        LoIsFirst(f, hi, done);
        AgainstZero(f, t);
        AgainstZero(f, s);
      }
    }
    if hi != f { Between(s, hi, f); }
  }

  lemma CompareFits(a: string, b: string)
    requires SignKept(Cross(a, b))
    ensures Compare(a, b) > 0 <==> !NotAbove(a, b)
    ensures Compare(a, b) < 0 <==> !NotAbove(b, a)
  {
    hide Cross, ToInt;
    SignOfInt(Cross(a, b));
    CrossTurns(a, b);
  }

  lemma CrossTurns(a: string, b: string)
    ensures Cross(b, a) == -Cross(a, b)
  {
    hide Numerator, Denominator;
  }

  function Names(list: seq<string>): set<string> {
    set t | t in Usable(list)
  }

  lemma NamesStep(list: seq<string>, done: set<string>)
    requires list != []
    ensures !Valid(list[0]) ==> Names(list) == Names(list[1..])
    ensures Valid(list[0]) ==> done + {list[0]} + Names(list[1..]) == done + Names(list)
  {}

  /** Part of the list is done, part is to come. */
  ghost predicate Underway(f: string, lo: string, hi: string, done: set<string>, rest: seq<string>, all: seq<string>) {
    && Tame(all) && f in all && (forall t :: t in done ==> t in all) && (forall t :: t in rest ==> t in all)
    && Good(f, done) && Bounds(f, lo, hi, done)
  }

  /** One step of the pass keeps to the bounds. */
  lemma ScanStep(f: string, lo: string, hi: string, done: set<string>, rest: seq<string>, all: seq<string>)
    requires Underway(f, lo, hi, done, rest, all) && rest != []
    ensures !Valid(rest[0]) ==> Underway(f, lo, hi, done, rest[1..], all)
    ensures Valid(rest[0]) ==>
      Underway(f, if Compare(lo, rest[0]) > 0 then rest[0] else lo,
               if Compare(lo, rest[0]) <= 0 && Compare(hi, rest[0]) < 0 then rest[0] else hi,
               done + {rest[0]}, rest[1..], all)
  {
    hide NotAbove, Cross, Compare, SignKept;
    var s := rest[0];
    assert s in rest && forall t :: t in rest[1..] ==> t in rest;
    if Valid(s) {
      assert lo in all && hi in all;
      CompareFits(lo, s);
      CompareFits(hi, s);
      if Compare(lo, s) > 0 {
        LowerBound(f, lo, hi, done, s);
      } else if Compare(hi, s) < 0 {
        UpperBound(f, lo, hi, done, s);
      }
    }
  }

  /** The pass keeps to the bounds. */
  lemma {:induction false} ScanBounds(f: string, lo: string, hi: string, done: set<string>, rest: seq<string>,
      all: seq<string>)
    requires Underway(f, lo, hi, done, rest, all)
    ensures var r := Scan(lo, hi, rest); Bounds(f, r.0, r.1, done + Names(rest))
    decreases |rest|
  {
    hide Bounds, Good, Tame, Valid, Compare, Names;
    if rest == [] {
      NoNames(done);
    } else {
      var s, tail := rest[0], rest[1..];
      ScanStep(f, lo, hi, done, rest, all);
      NamesStep(rest, done);
      if !Valid(s) {
        ScanBounds(f, lo, hi, done, tail, all);
      } else if Compare(lo, s) > 0 {
        ScanBounds(f, s, hi, done + {s}, tail, all);
      } else if Compare(hi, s) < 0 {
        ScanBounds(f, lo, s, done + {s}, tail, all);
      } else {
        ScanBounds(f, lo, hi, done + {s}, tail, all);
      }
    }
  }

  lemma NoNames(done: set<string>)
    ensures done + Names([]) == done
  {}

  /** What is found is the least and the greatest of the published speeds exactly if the first entry is itself
      a valid speed, or some valid speed lies on the right side of it. */
  lemma RangeIsRight(list: seq<string>)
    requires list != [] && Tame(list)
    ensures var (lo, hi) := Scan(list[0], list[0], list);
      && (IsLeast(lo, list) <==> Valid(list[0]) || exists t :: t in list && Valid(t) && Compare(list[0], t) > 0)
      && (IsGreatest(hi, list) <==> Valid(list[0]) || exists t :: t in list && Valid(t) && Compare(list[0], t) < 0)
  {
    hide NotAbove, Cross, Compare, SignKept, Scan;
    var f := list[0];
    var (lo, hi) := Scan(f, f, list);
    ScanBounds(f, f, f, {}, list, list);
    assert {} + Names(list) == Names(list);
    forall t | t in list
      ensures Compare(f, t) > 0 <==> !NotAbove(f, t)
      ensures Compare(f, t) < 0 <==> !NotAbove(t, f)
    {
      CompareFits(f, t);
    }
  }

  /** With 0 for a first entry, 1 is not found to be the least of the two. */
  lemma FirstEntryMatters()
    ensures var list := [Decimal.Digits(0), Decimal.Digits(1)];
      Tame(list) && Valid(list[1]) && !Valid(list[0]) && !IsLeast(Scan(list[0], list[0], list).0, list)
  {
    hide Decimal.Digits, Numerator, Denominator;
    WholeNumber(0);
    WholeNumber(1);
    var list := [Decimal.Digits(0), Decimal.Digits(1)];
    assert forall t :: t in list ==> t == Decimal.Digits(0) || t == Decimal.Digits(1);
    assert list[1] in list;
    assert Cross(list[0], list[1]) == -1 && Cross(list[0], list[0]) == 0 && Cross(list[1], list[0]) == 1;
    RangeIsRight(list);
  }

  // ---------- what clients see ----------

  lemma LeastValue(s: string, t: string)
    requires Denominator(s) > 0 && Denominator(t) > 0 && NotAbove(s, t)
    ensures Value(s) <= Value(t)
  {
    RealOrder(Numerator(t), Denominator(t), Numerator(s), Denominator(s));
  }

  /** Then every published speed lies between the published minimum and maximum, rounding and all. */
  lemma PublishedInRange(list: seq<string>, n: nat)
    requires list != [] && Tame(list) && n < |Usable(list)|
    ensures var (lo, hi) := Scan(list[0], list[0], list);
      && (IsLeast(lo, list) ==> ToDouble(lo) <= Published(Usable(list))[n])
      && (IsGreatest(hi, list) ==> Published(Usable(list))[n] <= ToDouble(hi))
  {
    hide NotAbove, Cross, Scan;
    var (lo, hi) := Scan(list[0], list[0], list);
    var t := Usable(list)[n];
    assert t in Usable(list);
    if IsLeast(lo, list) {
      LeastValue(lo, t);
      RoundedMonotone(Value(lo), Value(t));
    }
    if IsGreatest(hi, list) {
      LeastValue(t, hi);
      RoundedMonotone(Value(t), Value(hi));
    }
  }

  // ---------- choosing a speed ----------

  predicate Near(r: real, x: real) {
    -0.01 <= r - x <= 0.01
  }

  /** The first published speed near r; |tps| if there is none. */
  function Choose(tps: seq<real>, r: real): (i: nat)
    ensures i <= |tps| && (i < |tps| ==> Near(r, tps[i]))
    ensures forall n :: 0 <= n < i ==> !Near(r, tps[n])
  {
    if tps == [] || Near(r, tps[0]) then 0 else 1 + Choose(tps[1..], r)
  }

  /** The loop of prv_get_rate_value_from_double. */
  method FindSpeed(tps: seq<real>, r: real) returns (i: nat)
    ensures i == Choose(tps, r)
  {
    i := 0;
    while i < |tps| && !Near(r, tps[i])
      invariant 0 <= i <= |tps|
      invariant Choose(tps, r) == i + Choose(tps[i..], r)
    {
      assert tps[i..][1..] == tps[i + 1..];
      i := i + 1;
    }
  }

  /** The speed chosen is, as a fraction, within 0.015 of what was asked for. */
  lemma ChosenIsClose(strings: seq<string>, r: real)
    requires forall n :: 0 <= n < |strings| ==> Valid(strings[n])
    ensures var i := Choose(Published(strings), r);
      i < |strings| ==> -0.015 <= r - Value(strings[i]) <= 0.015
  {
    hide Value, Valid;
    var i := Choose(Published(strings), r);
    if i < |strings| {
      ToDoubleClose(strings[i]);
    }
  }

  lemma ToDoubleClose(s: string)
    requires Valid(s)
    ensures -0.005 <= ToDouble(s) - Value(s) <= 0.005
  {
    RoundedClose(Value(s));
  }
}
