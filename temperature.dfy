/** The sampling temperature: clamped to [0, 2] and rounded to one decimal
    (`formatTemperature`), and the value `getConfig` reads from the action's
    input. Numbers are exact reals. */
module Temperature {

  const MinTemperature: real := 0.0
  const MaxTemperature: real := 2.0

  /** `Math.min(Math.max(v, 0), 2)`. */
  function Clamp(v: real): (c: real)
    ensures MinTemperature <= c <= MaxTemperature
    ensures MinTemperature <= v <= MaxTemperature ==> c == v
    ensures v < MinTemperature ==> c == MinTemperature
    ensures v > MaxTemperature ==> c == MaxTemperature
  {
    if v < MinTemperature then MinTemperature
    else if v > MaxTemperature then MaxTemperature
    else v
  }

  /** `Math.round`: the nearest integer, halves going up. */
  function Round(x: real): (n: int)
    ensures x - 0.5 < n as real <= x + 0.5
  {
    (x + 0.5).Floor
  }

  /** `t` is a whole number of tenths. */
  predicate Tenths(t: real)
  {
    (t * 10.0).Floor as real == t * 10.0
  }

  /** `formatTemperature`: the tenth nearest to the clamped value. */
  function FormatTemperature(value: real): (t: real)
    ensures MinTemperature <= t <= MaxTemperature
    ensures Tenths(t)
    ensures -0.05 < t - Clamp(value) <= 0.05
  {
    var n := Round(Clamp(value) * 10.0);
    assert 0 <= n <= 20;
    assert (n as real / 10.0) * 10.0 == n as real;
    n as real / 10.0
  }

  /** A value already within range and in tenths comes back unchanged. */
  lemma TenthsInRangeAreFixed(t: real)
    requires MinTemperature <= t <= MaxTemperature && Tenths(t)
    ensures FormatTemperature(t) == t
  {
    var k := (t * 10.0).Floor;
    assert Round(t * 10.0) == k;
  }

  /** Formatting twice is formatting once. */
  lemma FormatTemperatureIdempotent(value: real)
    ensures FormatTemperature(FormatTemperature(value)) == FormatTemperature(value)
  {
    TenthsInRangeAreFixed(FormatTemperature(value));
  }

  /** A larger input never gives a smaller temperature. */
  lemma FormatTemperatureMonotone(a: real, b: real)
    requires a <= b
    ensures FormatTemperature(a) <= FormatTemperature(b)
  {
    assert Clamp(a) <= Clamp(b);
    assert Round(Clamp(a) * 10.0) <= Round(Clamp(b) * 10.0);
  }

  /** The values the configuration tests expect: 0.555 rounds to 0.6, 2.5 is
      capped at 2 and -0.5 raised to 0, while 0.5 and 0.7 pass through. */
  lemma FormatTemperatureExamples()
    ensures FormatTemperature(0.555) == 0.6
    ensures FormatTemperature(2.5) == 2.0
    ensures FormatTemperature(-0.5) == 0.0
    ensures FormatTemperature(0.5) == 0.5
    ensures FormatTemperature(0.7) == 0.7
  {
    assert Round(5.55) == 6;
    assert Round(20.0) == 20;
    assert Round(0.0) == 0;
    assert Round(5.0) == 5;
    assert Round(7.0) == 7;
  }

  /** The temperature text `getConfig` converts: the input, or "0.5" when
      the input is empty. */
  function TemperatureText(input: string): (text: string)
    ensures text != ""
    ensures input != "" ==> text == input
    ensures input == "" ==> text == "0.5"
  {
    if input != "" then input else "0.5"
  }

  /** `getConfig`'s temperature as written: the converted text, with no
      clamping or rounding. `number` stands for JavaScript's `Number`. */
  function ConfigTemperatureAsWritten(input: string, number: string -> real): (t: real)
    ensures t == number(TemperatureText(input))
  {
    number(TemperatureText(input))
  }

  /** As written, an input of 2.5 reaches the model as 2.5, above the
      largest temperature `formatTemperature` allows. */
  lemma AsWrittenConfigKeepsOutOfRange(number: string -> real)
    requires number("2.5") == 2.5
    ensures ConfigTemperatureAsWritten("2.5", number) == 2.5 > MaxTemperature
  {
  }

  /** `getConfig`'s temperature as evidently intended: the converted text
      passed through `formatTemperature`. */
  function ConfigTemperature(input: string, number: string -> real): (t: real)
    ensures MinTemperature <= t <= MaxTemperature && Tenths(t)
    ensures -0.05 < t - Clamp(number(TemperatureText(input))) <= 0.05
  {
    FormatTemperature(number(TemperatureText(input)))
  }

  /** The corrected reading meets the configuration tests: default 0.5,
      0.555 read as 0.6, 2.5 as 2 and -0.5 as 0. */
  lemma ConfigTemperatureMeetsItsTests(number: string -> real)
    requires number("0.5") == 0.5 && number("0.555") == 0.555
    requires number("2.5") == 2.5 && number("-0.5") == -0.5
    ensures ConfigTemperature("", number) == 0.5
    ensures ConfigTemperature("0.555", number) == 0.6
    ensures ConfigTemperature("2.5", number) == 2.0
    ensures ConfigTemperature("-0.5", number) == 0.0
  {
    FormatTemperatureExamples();
  }
}
