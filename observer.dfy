/**
 * The Observer record of weather/observer.py: one location's alert
 * thresholds and a slot for its most recent forecast, plus the text
 * `__str__` renders for it.
 */
module Observers {
  import opened Wrappers

  /** One day of a fetched forecast (timestamp and the temperatures the
      alert logic looks at). Only the slot that holds these is modelled. */
  datatype DailyForecast = DailyForecast(timestamp: int, day: int, min: int, max: int)

  /** The three values the identity line carries. */
  datatype Identity = Identity(name: string, minTemp: int, maxTemp: int)

  class Observer {
    var name: string
    var minTemp: int
    var maxTemp: int
    /** `None` until a forecast has been stored; distinct from `Some([])`. */
    var forecasts: Option<seq<DailyForecast>>

    /** Stores the three arguments as given; any pair of limits is accepted. */
    constructor (name: string, minTemp: int, maxTemp: int)
      ensures this.name == name && this.minTemp == minTemp && this.maxTemp == maxTemp
      ensures forecasts == None
    {
      this.name := name;
      this.minTemp := minTemp;
      this.maxTemp := maxTemp;
      forecasts := None;
    }

    /** `"<name>: Min alert: <min>, Max alert: <max>"`; the three fields can
        be read back from it, so distinct records render distinctly. */
    function ToString(): (s: string)
      reads this
      ensures EndsWith(s, MaxLabel + IntToString(maxTemp))
      ensures ParseIdentity(s) == Some(Identity(name, minTemp, maxTemp))
    {
      IdentityRoundTrip(name, minTemp, maxTemp);
      IdentityText(name, minTemp, maxTemp)
    }
  }

  const MinLabel := ": Min alert: "
  const MaxLabel := ", Max alert: "

  function IdentityText(name: string, minTemp: int, maxTemp: int): (line: string)
  {
    name + MinLabel + IntToString(minTemp) + MaxLabel + IntToString(maxTemp)
  }

  predicate EndsWith(s: string, suffix: string)
  {
    |suffix| <= |s| && s[|s| - |suffix|..] == suffix
  }

  // ---------------------------------------------------------------------
  // Decimal rendering of integers, as Python's `%s` prints an `int`.

  predicate IsDigit(c: char) { '0' <= c <= '9' }

  /** The characters a rendered integer is made of. */
  predicate IsNumeral(c: char) { c == '-' || IsDigit(c) }

  predicate AllDigits(s: string)
  {
    forall i | 0 <= i < |s| :: IsDigit(s[i])
  }

  /** Digits as `str` writes a natural number: at least one, and no leading
      zero unless the number is zero. */
  predicate Canonical(d: string)
  {
    |d| >= 1 && AllDigits(d) && (d[0] == '0' ==> |d| == 1)
  }

  predicate AllNumerals(s: string)
  {
    forall i | 0 <= i < |s| :: IsNumeral(s[i])
  }

  function DigitChar(d: nat): (c: char)
    requires d < 10
    ensures IsDigit(c) && c as int - '0' as int == d
  {
    ('0' as int + d) as char
  }

  /** The value of a string of decimal digits, most significant first. */
  function DigitsValue(s: string): nat
    requires AllDigits(s)
  {
    if s == [] then 0
    else DigitsValue(s[..|s| - 1]) * 10 + (s[|s| - 1] as int - '0' as int)
  }

  /** Canonical decimal digits of `n`: non-empty, no leading zero. */
  function NatToString(n: nat): (s: string)
    ensures Canonical(s)
    ensures s[0] == '0' ==> n == 0
    decreases n
  {
    if n < 10 then [DigitChar(n)] else NatToString(n / 10) + [DigitChar(n % 10)]
  }

  /** `str(n)` for a Python int: a minus sign for negatives, then the digits. */
  function IntToString(n: int): (s: string)
    ensures |s| >= 1 && AllNumerals(s)
    ensures (s[0] == '-') == (n < 0)
  {
    if n < 0 then "-" + NatToString(-n) else NatToString(n)
  }

  /** Reads back what `str` writes for an int: canonical digits, with a minus
      sign in front unless they are "0". Anything else (a leading zero,
      "-0", no digits) is not a rendered int. */
  function ParseInt(s: string): (r: Option<int>)
  {
    if |s| >= 2 && s[0] == '-' && Canonical(s[1..]) && s[1..] != "0" then Some(-(DigitsValue(s[1..]) as int))
    else if Canonical(s) then Some(DigitsValue(s))
    else None
  }

  lemma {:induction false} NatToStringValue(n: nat)
    ensures DigitsValue(NatToString(n)) == n
    decreases n
  {
    if n >= 10 {
      var s := NatToString(n);
      NatToStringValue(n / 10);
      assert s[..|s| - 1] == NatToString(n / 10);
    }
  }

  lemma IntToStringRoundTrip(n: int)
    ensures ParseInt(IntToString(n)) == Some(n)
  {
    var s := IntToString(n);
    if n < 0 {
      NatToStringValue(-n);
      assert s[1..] == NatToString(-n);
      assert DigitsValue("0") == 0 by {
        assert "0"[..0] == [];
      }
    } else {
      NatToStringValue(n);
    }
  }

  /** A number has one canonical rendering. */
  lemma {:induction false} CanonicalDigits(d: string)
    requires Canonical(d)
    ensures d == NatToString(DigitsValue(d))
    decreases |d|
  {
    var n := DigitsValue(d);
    var last := d[|d| - 1] as int - '0' as int;
    var init := d[..|d| - 1];
    assert n == DigitsValue(init) * 10 + last;
    if |d| == 1 {
      assert init == [];
      assert n == last;
    } else {
      assert Canonical(init) by {
        assert init[0] == d[0];
      }
      CanonicalDigits(init);
      PositiveValue(init);
      assert n / 10 == DigitsValue(init) && n % 10 == last;
      assert d == init + [DigitChar(last)];
    }
  }

  lemma {:induction false} PositiveValue(d: string)
    requires |d| >= 1 && AllDigits(d) && d[0] != '0'
    ensures DigitsValue(d) >= 1
    decreases |d|
  {
    if |d| > 1 {
      assert d[..|d| - 1][0] == d[0];
      PositiveValue(d[..|d| - 1]);
    } else {
      assert d[..0] == [];
    }
  }

  /** ParseInt accepts exactly the renderings IntToString produces. */
  lemma ParseIntExact(t: string, v: int)
    requires ParseInt(t) == Some(v)
    ensures t == IntToString(v)
  {
    if |t| >= 2 && t[0] == '-' && Canonical(t[1..]) && t[1..] != "0" {
      var d := t[1..];
      CanonicalDigits(d);
      PositiveValue(d);
      assert t == "-" + d;
    } else {
      CanonicalDigits(t);
    }
  }

  // ---------------------------------------------------------------------
  // Reading an identity line back, from the right: the maximum is the
  // trailing run of numeral characters, the minimum the run before the
  // ", Max alert: " label; whatever precedes ": Min alert: " is the name.

  function NumeralSuffixLength(s: string): (n: nat)
    ensures n <= |s|
  {
    if s == [] || !IsNumeral(s[|s| - 1]) then 0
    else 1 + NumeralSuffixLength(s[..|s| - 1])
  }

  function ParseIdentity(s: string): (r: Option<Identity>)
  {
    var beforeMax := s[..|s| - NumeralSuffixLength(s)];
    if !EndsWith(beforeMax, MaxLabel) then None
    else
      var minPart := beforeMax[..|beforeMax| - |MaxLabel|];
      var beforeMin := minPart[..|minPart| - NumeralSuffixLength(minPart)];
      if !EndsWith(beforeMin, MinLabel) then None
      else
        match (ParseInt(minPart[|beforeMin|..]), ParseInt(s[|beforeMax|..]))
        case (Some(lo), Some(hi)) =>
          Some(Identity(beforeMin[..|beforeMin| - |MinLabel|], lo, hi))
        case _ => None
  }

  /** A run of numerals behind a non-numeral is exactly the numeral suffix. */
  lemma {:induction false} NumeralSuffixAfterLabel(p: string, t: string)
    requires |p| > 0 && !IsNumeral(p[|p| - 1])
    requires AllNumerals(t)
    ensures NumeralSuffixLength(p + t) == |t|
    decreases |t|
  {
    if |t| > 0 {
      assert (p + t)[..|p + t| - 1] == p + t[..|t| - 1];
      NumeralSuffixAfterLabel(p, t[..|t| - 1]);
    } else {
      assert p + t == p;
    }
  }

  lemma IdentityRoundTrip(name: string, minTemp: int, maxTemp: int)
    ensures EndsWith(IdentityText(name, minTemp, maxTemp), MaxLabel + IntToString(maxTemp))
    ensures ParseIdentity(IdentityText(name, minTemp, maxTemp)) == Some(Identity(name, minTemp, maxTemp))
  {
    var lo, hi := IntToString(minTemp), IntToString(maxTemp);
    var s := IdentityText(name, minTemp, maxTemp);
    var minPart := name + MinLabel + lo;
    var beforeMax := minPart + MaxLabel;
    assert s == beforeMax + hi;
    NumeralSuffixAfterLabel(beforeMax, hi);
    assert s[..|s| - |hi|] == beforeMax;
    assert beforeMax[..|beforeMax| - |MaxLabel|] == minPart;
    NumeralSuffixAfterLabel(name + MinLabel, lo);
    assert minPart[..|minPart| - |lo|] == name + MinLabel;
    assert (name + MinLabel)[..|name + MinLabel| - |MinLabel|] == name;
    assert minPart[|name + MinLabel|..] == lo;
    assert s[|beforeMax|..] == hi;
    assert s[|s| - |MaxLabel + hi|..] == MaxLabel + hi;
    IntToStringRoundTrip(minTemp);
    IntToStringRoundTrip(maxTemp);
  }

  /** The converse of IdentityRoundTrip: the only line that reads back as
      some three values is the one rendered from them. */
  lemma ParseIdentityExact(s: string)
    requires ParseIdentity(s).Some?
    ensures var id := ParseIdentity(s).value;
      s == IdentityText(id.name, id.minTemp, id.maxTemp)
  {
    var id := ParseIdentity(s).value;
    var beforeMax := s[..|s| - NumeralSuffixLength(s)];
    var minPart := beforeMax[..|beforeMax| - |MaxLabel|];
    var beforeMin := minPart[..|minPart| - NumeralSuffixLength(minPart)];
    var lo, hi := minPart[|beforeMin|..], s[|beforeMax|..];
    ParseIntExact(lo, id.minTemp);
    ParseIntExact(hi, id.maxTemp);
    SplitAt(s, |beforeMax|);
    SplitAt(minPart, |beforeMin|);
    LabelSplit(beforeMax, MaxLabel);
    LabelSplit(beforeMin, MinLabel);
    Reassemble(s, beforeMax, minPart, beforeMin, id.name, lo, hi);
  }

  lemma SplitAt(x: string, k: nat)
    requires k <= |x|
    ensures x == x[..k] + x[k..]
  {
  }

  lemma LabelSplit(x: string, suffix: string)
    requires EndsWith(x, suffix)
    ensures x == x[..|x| - |suffix|] + suffix
  {
  }

  lemma Reassemble(s: string, beforeMax: string, minPart: string, beforeMin: string,
                   name: string, lo: string, hi: string)
    requires s == beforeMax + hi && beforeMax == minPart + MaxLabel
    requires minPart == beforeMin + lo && beforeMin == name + MinLabel
    ensures s == name + MinLabel + lo + MaxLabel + hi
  {
  }

  /** With ToString's own contract this fixes the rendered text: it is the
      one string that reads back as the record's three fields. */
  lemma ToStringExact(o: Observer, s: string)
    requires ParseIdentity(s) == Some(Identity(o.name, o.minTemp, o.maxTemp))
    ensures s == o.ToString()
  {
    ParseIdentityExact(s);
  }

  /** Two records with the same identity line hold the same three values. */
  lemma IdentityInjective(a: Observer, b: Observer)
    requires a.ToString() == b.ToString()
    ensures a.name == b.name && a.minTemp == b.minTemp && a.maxTemp == b.maxTemp
  {
  }

  /** The record built in the creation test renders as below. */
  lemma EspooIdentity(o: Observer)
    requires o.name == "Espoo" && o.minTemp == -20 && o.maxTemp == 30
    ensures o.ToString() == "Espoo: Min alert: -20, Max alert: 30"
  {
    EspooText();
  }

  lemma EspooText()
    ensures IdentityText("Espoo", -20, 30) == "Espoo: Min alert: -20, Max alert: 30"
  {
    EspooNumerals();
    var head := "Espoo" + MinLabel + "-20";
    assert head == "Espoo: Min alert: -20";
    assert MaxLabel + "30" == ", Max alert: 30";
    assert IdentityText("Espoo", -20, 30) == head + (MaxLabel + "30");
  }

  lemma EspooNumerals()
    ensures IntToString(-20) == "-20" && IntToString(30) == "30"
  {
    assert DigitChar(0) == '0' && DigitChar(2) == '2' && DigitChar(3) == '3';
    assert NatToString(20) == NatToString(2) + [DigitChar(0)] == "20";
    assert NatToString(30) == NatToString(3) + [DigitChar(0)] == "30";
  }
}
