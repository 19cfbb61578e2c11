/** Display-currency conversion and money formatting (lib/pearls/currencies.ts).
    Amounts are exact reals; `toFixed` and the 'en-US' `toLocaleString` with two
    fraction digits are written out as rounding to a whole number of units of
    the last decimal place followed by decimal rendering. */
module Currencies {
  import opened Wrappers
  import opened Text
  import opened Config

  /** CurrencyRates: how many EUR, GBP and CAD one USD buys. */
  datatype Rates = Rates(eur: real, gbp: real, cad: real)

  /** The multiplier convertUsdTo applies: 1 for USD and for a missing (zero) rate. */
  function EffectiveRate(currency: Currency, rates: Rates): (rate: real)
    ensures rate != 0.0
    ensures currency == USD ==> rate == 1.0
  {
    match currency
    case USD => 1.0
    case EUR => if rates.eur == 0.0 then 1.0 else rates.eur
    case GBP => if rates.gbp == 0.0 then 1.0 else rates.gbp
    case CAD => if rates.cad == 0.0 then 1.0 else rates.cad
  }

  /** convertUsdTo. */
  function ConvertUsdTo(usdAmount: real, currency: Currency, rates: Rates): (amount: real)
    ensures amount == usdAmount * EffectiveRate(currency, rates)
  {
    if currency == USD then usdAmount
    else
      var rate := match currency
        case EUR => rates.eur
        case GBP => rates.gbp
        case CAD => rates.cad
        case USD => 1.0;
      if rate == 0.0 then usdAmount else usdAmount * rate
  }

  /** Conversion loses nothing: dividing by the rate used gives the USD amount
      back, and with non-negative rates it keeps the order of amounts. */
  lemma ConvertInverse(usdAmount: real, other: real, currency: Currency, rates: Rates)
    ensures ConvertUsdTo(usdAmount, currency, rates) / EffectiveRate(currency, rates) == usdAmount
    ensures rates.eur >= 0.0 && rates.gbp >= 0.0 && rates.cad >= 0.0 && usdAmount <= other ==>
      ConvertUsdTo(usdAmount, currency, rates) <= ConvertUsdTo(other, currency, rates)
  {
    var rate := EffectiveRate(currency, rates);
    if rate > 0.0 && usdAmount <= other {
      assert usdAmount * rate <= other * rate;
    }
  }

  // ---------------------------------------------------------------------------
  // Decimal rendering
  // ---------------------------------------------------------------------------

  function Abs(x: real): (r: real)
    ensures r >= 0.0 && (r == x || r == -x)
  {
    if x < 0.0 then -x else x
  }

  /** x scaled by 10^d and rounded to the nearest whole number, ties upward
      (`toFixed` and the locale formatter agree on this for non-negative x). */
  function RoundHalfUp(x: real, d: nat): nat
    requires x >= 0.0
  {
    var scaled := x * Pow10(d) as real;
    assert scaled >= 0.0 by {
      NonNegProduct(x, Pow10(d) as real);
    }
    (scaled + 0.5).Floor
  }

  lemma NonNegProduct(a: real, b: real)
    requires a >= 0.0 && b >= 0.0
    ensures a * b >= 0.0
  {
  }

  /** The rounded value is within half a unit of the last decimal place. */
  lemma RoundHalfUpAccuracy(x: real, d: nat)
    requires x >= 0.0
    ensures var n := RoundHalfUp(x, d);
      n as real - 0.5 <= x * Pow10(d) as real < n as real + 0.5
  {
  }

  /** n units of 10^-d written with d fraction digits; the whole part is
      grouped by thousands when `group` is set. */
  function FixedDigits(n: nat, d: nat, group: bool): string
    requires d >= 1
  {
    var p := Pow10(d);
    DivMod(n, p);
    RenderFixed(n / p, n % p, d, group)
  }

  /** A whole part, '.', and the fraction zero-padded to d digits. */
  function RenderFixed(whole: nat, frac: nat, d: nat, group: bool): string {
    var w := NatString(whole);
    (if group then Grouped(w) else w) + "." + PadStart(NatString(frac), d, '0')
  }

  /** `x.toFixed(d)` for d >= 1. */
  function ToFixed(x: real, d: nat): string
    requires d >= 1
  {
    if x < 0.0 then "-" + FixedDigits(RoundHalfUp(-x, d), d, false)
    else FixedDigits(RoundHalfUp(x, d), d, false)
  }

  /** `x.toLocaleString('en-US', { minimumFractionDigits: 2, maximumFractionDigits: 2 })`
      for x >= 0. */
  function LocaleFixed2(x: real): string
    requires x >= 0.0
  {
    FixedDigits(RoundHalfUp(x, 2), 2, true)
  }

  /** Reads a rendered amount back as a count of 10^-d units. */
  function ReadFixedDigits(s: string, d: nat): Option<nat> {
    match IndexOf(s, '.')
    case None => None
    case Some(i) =>
      var whole := StripCommas(s[..i]);
      var frac := s[i + 1..];
      if |whole| >= 1 && IsDigits(whole) && |frac| == d && IsDigits(frac)
      then Some(DecimalValue(whole) * Pow10(d) + DecimalValue(frac))
      else None
  }

  /** Reads an optionally '-'-signed rendered amount. */
  function ReadSignedFixed(s: string, d: nat): Option<(bool, nat)> {
    if |s| > 0 && s[0] == '-' then
      match ReadFixedDigits(s[1..], d)
      case None => None
      case Some(n) => Some((true, n))
    else
      match ReadFixedDigits(s, d)
      case None => None
      case Some(n) => Some((false, n))
  }

  /** Rendering, grouped or not, reads back as the same number of units. */
  lemma FixedDigitsRoundTrip(n: nat, d: nat, group: bool)
    requires d >= 1
    ensures |FixedDigits(n, d, group)| > 0 && FixedDigits(n, d, group)[0] != '-'
    ensures ReadFixedDigits(FixedDigits(n, d, group), d) == Some(n)
  {
    var p := Pow10(d);
    var q, r := n / p, n % p;
    DivMod(n, p);
    assert FixedDigits(n, d, group) == RenderFixed(q, r, d, group);
    RenderRoundTrip(q, r, d, group);
    assert q * p + r == n;
  }

  lemma DivMod(n: nat, p: nat)
    requires p >= 1
    ensures 0 <= n / p && 0 <= n % p < p && n == (n / p) * p + n % p
  {
  }

  lemma RenderRoundTrip(whole: nat, frac: nat, d: nat, group: bool)
    requires d >= 1 && frac < Pow10(d)
    ensures |RenderFixed(whole, frac, d, group)| > 0 && RenderFixed(whole, frac, d, group)[0] != '-'
    ensures ReadFixedDigits(RenderFixed(whole, frac, d, group), d) == Some(whole * Pow10(d) + frac)
  {
    var w := NatString(whole);
    var gw := if group then Grouped(w) else w;
    var f := PadStart(NatString(frac), d, '0');
    assert RenderFixed(whole, frac, d, group) == gw + "." + f;
    WholePartFacts(w, group);
    DecimalOfNatString(whole);
    FracFacts(frac, d);
    ReadFixedParts(gw, f, d, whole, frac);
  }

  /** The fraction is exactly d digits and reads back as itself. */
  lemma FracFacts(frac: nat, d: nat)
    requires d >= 1 && frac < Pow10(d)
    ensures var f := PadStart(NatString(frac), d, '0');
      |f| == d && IsDigits(f) && DecimalValue(f) == frac
  {
    NatStringShort(frac, d);
    PaddedRoundTrip(frac, d);
  }

  /** The whole part, grouped or not, has no '.', does not start with '-', and
      gives the digits back once the separators are removed. */
  lemma WholePartFacts(w: string, group: bool)
    requires IsDigits(w) && |w| >= 1
    ensures var gw := if group then Grouped(w) else w;
      '.' !in gw && |gw| >= 1 && gw[0] != '-' && StripCommas(gw) == w
  {
    if group {
      StripGrouped(w);
      var gw := Grouped(w);
      assert forall k :: 0 <= k < |gw| ==> gw[k] == ',' || IsDigit(gw[k]);
      assert StripCommas(gw) != [] ==> gw != [];
    } else {
      NoneInDigits(w, ',');
      StripCommasNone(w);
      NoneInDigits(w, '.');
    }
  }

  lemma ReadFixedParts(gw: string, f: string, d: nat, whole: nat, frac: nat)
    requires '.' !in gw && |StripCommas(gw)| >= 1 && IsDigits(StripCommas(gw))
    requires |f| == d && IsDigits(f)
    requires DecimalValue(StripCommas(gw)) == whole && DecimalValue(f) == frac
    ensures ReadFixedDigits(gw + "." + f, d) == Some(whole * Pow10(d) + frac)
  {
    IndexOfAfter(gw, '.', f);
    var s := gw + "." + f;
    assert s[..|gw|] == gw && s[|gw| + 1..] == f;
  }

  /** `toFixed(d)` reads back as the sign of x and x rounded to d decimals. */
  lemma ToFixedRoundTrip(x: real, d: nat)
    requires d >= 1
    ensures ReadSignedFixed(ToFixed(x, d), d) == Some((x < 0.0, RoundHalfUp(Abs(x), d)))
  {
    var n := RoundHalfUp(Abs(x), d);
    var digits := FixedDigits(n, d, false);
    FixedDigitsRoundTrip(n, d, false);
    ToFixedShape(x, d);
    SignedPrefix(x < 0.0, digits);
  }

  lemma ToFixedShape(x: real, d: nat)
    requires d >= 1
    ensures ToFixed(x, d) == (if x < 0.0 then "-" else "") + FixedDigits(RoundHalfUp(Abs(x), d), d, false)
  {
    var digits := FixedDigits(RoundHalfUp(Abs(x), d), d, false);
    if x >= 0.0 {
      assert "" + digits == digits;
    }
  }

  /** An optional '-' before a text that does not start with one is read off
      exactly. */
  lemma SignedPrefix(negative: bool, rest: string)
    requires |rest| > 0 && rest[0] != '-'
    ensures var s := (if negative then "-" else "") + rest;
      && (|s| > 0 && s[0] == '-' <==> negative)
      && (if negative then s[1..] else s) == rest
  {
    var s := (if negative then "-" else "") + rest;
    if negative {
      assert s[0] == '-' && s[1..] == rest;
    } else {
      assert s == rest;
    }
  }

  // ---------------------------------------------------------------------------
  // formatCurrency and formatNative
  // ---------------------------------------------------------------------------

  /** The currency symbols of formatCurrency. */
  function Symbol(currency: Currency): (s: string)
    ensures |s| >= 1 && s[0] != '-'
  {
    match currency
    case USD => "$"
    case EUR => "\U{20AC}"
    case GBP => "\U{A3}"
    case CAD => "C$"
  }

  /** The currency whose symbol the text starts with. */
  function SymbolAtStart(s: string): Option<Currency> {
    if StartsWith(s, "$") then Some(USD)
    else if StartsWith(s, "\U{20AC}") then Some(EUR)
    else if StartsWith(s, "\U{A3}") then Some(GBP)
    else if StartsWith(s, "C$") then Some(CAD)
    else None
  }

  /** formatCurrency: a '-' for negative amounts, the symbol, then the absolute
      value with two decimals, thousands-grouped from 1000 upward. */
  function FormatCurrency(amount: real, currency: Currency): (r: string)
    ensures |r| > 0 && (r[0] == '-' <==> amount < 0.0)
  {
    var symbol := Symbol(currency);
    var formatted := AmountText(Abs(amount));
    if amount < 0.0 then "-" + symbol + formatted else symbol + formatted
  }

  /** The absolute amount as formatCurrency renders it. */
  function AmountText(absAmount: real): string
    requires absAmount >= 0.0
  {
    if absAmount >= 1000.0 then LocaleFixed2(absAmount) else ToFixed(absAmount, 2)
  }

  /** Reads a formatCurrency text: sign, currency and amount in cents. */
  function ReadCurrency(s: string): Option<(bool, Currency, nat)> {
    var negative := |s| > 0 && s[0] == '-';
    var rest := if negative then s[1..] else s;
    match SymbolAtStart(rest)
    case None => None
    case Some(c) =>
      match ReadFixedDigits(rest[|Symbol(c)|..], 2)
      case None => None
      case Some(cents) => Some((negative, c, cents))
  }

  /** The formatted text gives back the sign, the currency and the absolute
      amount rounded to the cent. */
  lemma FormatCurrencyRoundTrip(amount: real, currency: Currency)
    ensures ReadCurrency(FormatCurrency(amount, currency))
            == Some((amount < 0.0, currency, RoundHalfUp(Abs(amount), 2)))
  {
    var absAmount := Abs(amount);
    var cents := RoundHalfUp(absAmount, 2);
    FormatCurrencyShape(amount, currency);
    FixedDigitsRoundTrip(cents, 2, absAmount >= 1000.0);
    ReadCurrencyParts(amount < 0.0, currency, FixedDigits(cents, 2, absAmount >= 1000.0), cents);
  }

  lemma FormatCurrencyShape(amount: real, currency: Currency)
    ensures FormatCurrency(amount, currency)
            == (if amount < 0.0 then "-" else "")
               + (Symbol(currency) + FixedDigits(RoundHalfUp(Abs(amount), 2), 2, Abs(amount) >= 1000.0))
  {
    var symbol := Symbol(currency);
    var formatted := AmountText(Abs(amount));
    assert formatted == FixedDigits(RoundHalfUp(Abs(amount), 2), 2, Abs(amount) >= 1000.0);
    if amount < 0.0 {
      assert "-" + symbol + formatted == "-" + (symbol + formatted);
    } else {
      assert "" + (symbol + formatted) == symbol + formatted;
    }
  }

  lemma ReadCurrencyParts(negative: bool, currency: Currency, formatted: string, cents: nat)
    requires ReadFixedDigits(formatted, 2) == Some(cents)
    ensures ReadCurrency((if negative then "-" else "") + (Symbol(currency) + formatted))
            == Some((negative, currency, cents))
  {
    var rest := Symbol(currency) + formatted;
    SymbolRead(currency, formatted);
    SignedPrefix(negative, rest);
  }

  lemma SymbolRead(currency: Currency, formatted: string)
    ensures SymbolAtStart(Symbol(currency) + formatted) == Some(currency)
    ensures (Symbol(currency) + formatted)[|Symbol(currency)|..] == formatted
    ensures (Symbol(currency) + formatted)[0] != '-'
  {
    var rest := Symbol(currency) + formatted;
    assert rest[..|Symbol(currency)|] == Symbol(currency);
    match currency
    case USD =>
    case EUR =>
      assert rest[..1] == "\U{20AC}";
    case GBP =>
      assert rest[..1] == "\U{A3}";
    case CAD =>
      assert rest[..2] == "C$";
      assert rest[..1] == "C";
  }

  /** formatNative: six decimals and " ETH" for ETH, otherwise two decimals, a
      space and the currency code as given. */
  function FormatNative(amount: real, currency: string): (r: string)
    ensures EndsWith(r, " " + currency)
  {
    // The ETH branch's literal suffix " ETH" is " " + currency there.
    var num := if currency == "ETH" then ToFixed(amount, 6) else ToFixed(amount, 2);
    EndsWithAppend(num, " " + currency);
    assert num + " " + currency == num + (" " + currency);
    num + " " + currency
  }

  /** The number of decimals formatNative uses for a currency. */
  function NativeDecimals(currency: string): nat {
    if currency == "ETH" then 6 else 2
  }

  /** Reads a formatNative text: sign, units of 10^-decimals, and the currency. */
  function ReadNative(s: string): Option<(bool, nat, string)> {
    match IndexOf(s, ' ')
    case None => None
    case Some(i) =>
      var currency := s[i + 1..];
      match ReadSignedFixed(s[..i], NativeDecimals(currency))
      case None => None
      case Some(v) => Some((v.0, v.1, currency))
  }

  /** The native text gives back the sign, the rounded amount and the currency. */
  lemma FormatNativeRoundTrip(amount: real, currency: string)
    ensures ReadNative(FormatNative(amount, currency))
            == Some((amount < 0.0, RoundHalfUp(Abs(amount), NativeDecimals(currency)), currency))
  {
    var d := NativeDecimals(currency);
    var num := ToFixed(amount, d);
    ToFixedRoundTrip(amount, d);
    NoSpaceInFixed(amount, d);
    assert FormatNative(amount, currency) == num + " " + currency;
    ReadNativeParts(num, currency);
  }

  lemma ReadNativeParts(num: string, currency: string)
    requires ' ' !in num
    ensures ReadNative(num + " " + currency)
            == match ReadSignedFixed(num, NativeDecimals(currency))
               case None => None
               case Some(v) => Some((v.0, v.1, currency))
  {
    IndexOfAfter(num, ' ', currency);
    var s := num + " " + currency;
    assert s[..|num|] == num && s[|num| + 1..] == currency;
  }

  lemma NoSpaceInFixed(x: real, d: nat)
    requires d >= 1
    ensures ' ' !in ToFixed(x, d)
  {
    var n := RoundHalfUp(Abs(x), d);
    var p := Pow10(d);
    DivMod(n, p);
    RenderNoSpace(n / p, n % p, d);
    assert FixedDigits(n, d, false) == RenderFixed(n / p, n % p, d, false);
  }

  lemma RenderNoSpace(whole: nat, frac: nat, d: nat)
    ensures ' ' !in RenderFixed(whole, frac, d, false)
  {
    var w := NatString(whole);
    var f := PadStart(NatString(frac), d, '0');
    PaddedRoundTrip(frac, d);
    NoneInDigits(w, ' ');
    NoneInDigits(f, ' ');
    assert RenderFixed(whole, frac, d, false) == w + "." + f;
  }
}
