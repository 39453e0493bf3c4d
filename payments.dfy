/** Pricing and payment references shared by the checkout flows: the base
    prices in minor units, the currency chosen for a country, the
    conversion into that currency, and the reference string that ties a
    local payment row to a provider event. */
module Payments {
  import opened Store
  import Text

  /** Prices in minor units (cents or kobo). */
  const PREMIUM_MONTHLY := 1900
  const JOB_BOOST_PRICE := 2900

  /** The country codes billed in naira. */
  const AFRICAN_COUNTRIES := ["NG", "GH", "KE", "ZA", "EG", "MA", "TN"]

  /** The fixed conversion table; currencies absent from it convert at 1. */
  const CONVERSION_RATES := map["USD" := 1, "NGN" := 1600]

  /** `getCurrencyForRegion(country)`: naira for a listed country code,
      dollars for every other code and for an absent or empty one. */
  function CurrencyForRegion(country: Option<string>): (currency: string)
    ensures currency == "NGN" || currency == "USD"
    ensures currency == "NGN" <==> country.Some? && country.value in AFRICAN_COUNTRIES
  {
    if Truthy(country) && country.value in AFRICAN_COUNTRIES then "NGN" else "USD"
  }

  /** The rate looked up for `currency`, with the `|| 1` fallback that also
      replaces a zero rate. */
  function Rate(currency: string): (rate: int)
    ensures rate == if currency == "NGN" then 1600 else 1
  {
    if currency in CONVERSION_RATES && CONVERSION_RATES[currency] != 0 then CONVERSION_RATES[currency] else 1
  }

  /** `convertAmount(amount, currency)` on whole minor units, where
      `Math.round` leaves the product unchanged. */
  function ConvertAmount(amount: int, currency: string): (converted: int)
    ensures currency != "NGN" ==> converted == amount
    ensures currency == "NGN" ==> converted == 1600 * amount
  {
    amount * Rate(currency)
  }

  /** Conversion keeps the order of amounts and never changes a sign. */
  lemma ConvertMonotone(a: int, b: int, currency: string)
    requires a <= b
    ensures ConvertAmount(a, currency) <= ConvertAmount(b, currency)
    ensures (a >= 0 <==> ConvertAmount(a, currency) >= 0)
  {
  }

  function DigitChar(d: nat): (c: char)
    requires d < 10
    ensures '0' <= c <= '9'
  {
    ('0' as int + d) as char
  }

  function DigitValue(c: char): (d: int)
    ensures '0' <= c <= '9' ==> 0 <= d < 10 && DigitChar(d) == c
  {
    c as int - '0' as int
  }

  /** The decimal text of `n`, as a template literal renders `Date.now()`. */
  function Decimal(n: nat): (s: string)
    ensures s != []
    ensures forall i :: 0 <= i < |s| ==> '0' <= s[i] <= '9'
  {
    if n < 10 then [DigitChar(n)] else Decimal(n / 10) + [DigitChar(n % 10)]
  }

  /** The number a string of decimal digits denotes. */
  function ParseDecimal(s: string): int {
    if s == [] then 0 else 10 * ParseDecimal(s[..|s| - 1]) + DigitValue(s[|s| - 1])
  }

  lemma {:induction false} ParseDecimalOfDecimal(n: nat)
    ensures ParseDecimal(Decimal(n)) == n
  {
    if n >= 10 {
      var s := Decimal(n);
      assert s[..|s| - 1] == Decimal(n / 10);
      ParseDecimalOfDecimal(n / 10);
    }
  }

  /** One base-36 digit as `toString(36)` writes it. */
  function Base36Char(d: nat): (c: char)
    requires d < 36
    ensures c != '_'
  {
    if d < 10 then DigitChar(d) else ('a' as int + (d - 10)) as char
  }

  predicate IsBase36(digits: seq<nat>) {
    forall i :: 0 <= i < |digits| ==> digits[i] < 36
  }

  /** `Math.random().toString(36).substr(2, 9)`: at most nine fractional
      base-36 digits of the draw (`digits`, empty for a draw of zero). */
  function RandomSuffix(digits: seq<nat>): (s: string)
    requires IsBase36(digits)
    ensures |s| <= 9 && '_' !in s
  {
    var n := if |digits| < 9 then |digits| else 9;
    seq(n, i requires 0 <= i < n => Base36Char(digits[i]))
  }

  /** `generatePaymentRef()` with the clock reading and the random draw as
      inputs: `payment_<millis>_<suffix>`. */
  function GeneratePaymentRef(nowMillis: nat, digits: seq<nat>): (ref: string)
    requires IsBase36(digits)
    ensures |ref| > 9 && ref[..8] == "payment_"
  {
    "payment_" + Decimal(nowMillis) + "_" + RandomSuffix(digits)
  }

  /** A reference splits on `_` into its three parts, and its middle part
      reads back as the clock value. */
  lemma {:induction false} PaymentRefParts(nowMillis: nat, digits: seq<nat>)
    requires IsBase36(digits)
    ensures Text.Split(GeneratePaymentRef(nowMillis, digits), '_')
      == ["payment", Decimal(nowMillis), RandomSuffix(digits)]
    ensures ParseDecimal(Text.Split(GeneratePaymentRef(nowMillis, digits), '_')[1]) == nowMillis
  {
    var pieces := ["payment", Decimal(nowMillis), RandomSuffix(digits)];
    assert Text.Join(pieces[2..], '_') == RandomSuffix(digits);
    assert Text.Join(pieces[1..], '_') == Decimal(nowMillis) + "_" + RandomSuffix(digits);
    assert Text.Join(pieces, '_') == GeneratePaymentRef(nowMillis, digits);
    Text.SplitJoin(pieces, '_');
    ParseDecimalOfDecimal(nowMillis);
  }

  /** Two references coincide only when they were made in the same
      millisecond with the same first nine random digits. */
  lemma PaymentRefInjective(n1: nat, d1: seq<nat>, n2: nat, d2: seq<nat>)
    requires IsBase36(d1) && IsBase36(d2)
    requires GeneratePaymentRef(n1, d1) == GeneratePaymentRef(n2, d2)
    ensures n1 == n2 && RandomSuffix(d1) == RandomSuffix(d2)
  {
    PaymentRefParts(n1, d1);
    PaymentRefParts(n2, d2);
  }
}
