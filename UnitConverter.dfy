/** The unit converter: conversions between linear units through inches,
    and the feet-and-inches formatter (lumber-app/Services/UnitConverter.cs). */
module UnitConverter {
  import opened Results

  const ToInchesError: string := "Unsupported unit for conversion to inches."
  const FromInchesError: string := "Unsupported unit for conversion from inches."

  /** Inches per unit for every lower-case token the conversion to inches
      knows, aliases included: the reference table for ConvertToInches. */
  const ToInchesTable: map<string, real> :=
    map["ft" := 12.0, "feet" := 12.0, "'" := 12.0,
        "in" := 1.0, "inches" := 1.0, "\"" := 1.0,
        "m" := 39.3701, "meters" := 39.3701,
        "cm" := 0.393701, "centimeters" := 0.393701]

  /** The table the conversion from inches actually uses: no symbol aliases,
      and the token `inc hes` where `inches` was meant. */
  const FromInchesTable: map<string, real> :=
    map["ft" := 12.0, "feet" := 12.0,
        "in" := 1.0, "inc hes" := 1.0,
        "m" := 39.3701, "meters" := 39.3701,
        "cm" := 0.393701, "centimeters" := 0.393701]

  /** `char.ToLower` on the ASCII letters; every other character is kept. */
  function LowerChar(c: char): char {
    if 'A' <= c <= 'Z' then (c as int - 'A' as int + 'a' as int) as char else c
  }

  predicate IsLower(s: string) {
    forall i :: 0 <= i < |s| ==> !('A' <= s[i] <= 'Z')
  }

  /** `string.ToLower`: lower-cases letter by letter, keeping the length. */
  function ToLower(s: string): (r: string)
    ensures |r| == |s|
  {
    if s == [] then [] else [LowerChar(s[0])] + ToLower(s[1..])
  }

  /** Lower-casing maps each character on its own and leaves no upper-case
      letter. */
  lemma {:induction false} ToLowerIsCharwise(s: string)
    ensures forall i :: 0 <= i < |s| ==> ToLower(s)[i] == LowerChar(s[i])
    ensures IsLower(ToLower(s))
  {
    if s != [] {
      ToLowerIsCharwise(s[1..]);
      assert ToLower(s) == [LowerChar(s[0])] + ToLower(s[1..]);
    }
  }

  /** Lower-casing twice is lower-casing once. */
  lemma {:induction false} ToLowerIdempotent(s: string)
    ensures ToLower(ToLower(s)) == ToLower(s)
  {
    if s != [] {
      ToLowerIdempotent(s[1..]);
    }
  }

  /** A string without upper-case letters is its own lower-case form. */
  lemma {:induction false} LowerIsFixed(s: string)
    requires IsLower(s)
    ensures ToLower(s) == s
  {
    if s != [] {
      LowerIsFixed(s[1..]);
    }
  }

  /** The units behind the tokens; each has its factor to inches. */
  datatype LengthUnit = Foot | Inch | Meter | Centimeter

  /** Inches per unit: `InchesPerFoot`, 1, `InchesPerMeter` and
      `InchesPerCentimeter`. */
  function InchesPer(u: LengthUnit): (r: real)
    ensures r > 0.0
  {
    match u
    case Foot => 12.0
    case Inch => 1.0
    case Meter => 39.3701
    case Centimeter => 0.393701
  }

  /** The arm of ConvertToInches for one unit; inches pass unchanged. The
      sign of the value is kept. */
  function ScaleToInches(value: real, u: LengthUnit): (r: real)
    ensures r > 0.0 <==> value > 0.0
    ensures r == 0.0 <==> value == 0.0
  {
    match u
    case Foot => value * 12.0
    case Inch => value
    case Meter => value * 39.3701
    case Centimeter => value * 0.393701
  }

  /** The arm of ConvertFromInches for one unit. */
  function ScaleFromInches(inches: real, u: LengthUnit): (r: real)
    ensures r > 0.0 <==> inches > 0.0
    ensures r == 0.0 <==> inches == 0.0
  {
    match u
    case Foot => inches / 12.0
    case Inch => inches
    case Meter => inches / 39.3701
    case Centimeter => inches / 0.393701
  }

  /** Each arm multiplies, or divides, by the unit's factor. */
  lemma ScalingUsesFactor(value: real, u: LengthUnit)
    ensures ScaleToInches(value, u) == value * InchesPer(u)
    ensures ScaleFromInches(value, u) == value / InchesPer(u)
  {
    match u
    case Foot =>
    case Inch =>
    case Meter =>
    case Centimeter =>
  }

  /** The two arms of a unit undo each other. */
  lemma ScalingRoundTrip(value: real, u: LengthUnit)
    ensures ScaleFromInches(ScaleToInches(value, u), u) == value
    ensures ScaleToInches(ScaleFromInches(value, u), u) == value
  {
    match u
    case Foot =>
    case Inch =>
    case Meter =>
    case Centimeter =>
  }

  /** Each arm keeps strict order both ways, is additive and commutes with
      scaling. */
  lemma ScalingIsMonotoneAndLinear(a: real, b: real, k: real, u: LengthUnit)
    ensures a < b <==> ScaleToInches(a, u) < ScaleToInches(b, u)
    ensures ScaleToInches(a + b, u) == ScaleToInches(a, u) + ScaleToInches(b, u)
    ensures ScaleToInches(k * a, u) == k * ScaleToInches(a, u)
    ensures a < b <==> ScaleFromInches(a, u) < ScaleFromInches(b, u)
    ensures ScaleFromInches(a + b, u) == ScaleFromInches(a, u) + ScaleFromInches(b, u)
    ensures ScaleFromInches(k * a, u) == k * ScaleFromInches(a, u)
  {
    match u
    case Foot =>
    case Inch =>
    case Meter =>
    case Centimeter =>
  }

  /** The lower-case tokens ConvertToInches accepts, aliases included. */
  function ToInchesUnit(token: string): Option<LengthUnit> {
    match token
    case "ft" | "feet" | "'" => Some(Foot)
    case "in" | "inches" | "\"" => Some(Inch)
    case "m" | "meters" => Some(Meter)
    case "cm" | "centimeters" => Some(Centimeter)
    case _ => None
  }

  /** The lower-case tokens ConvertFromInches accepts, as written. */
  function FromInchesUnit(token: string): Option<LengthUnit> {
    match token
    case "ft" | "feet" => Some(Foot)
    case "in" | "inc hes" => Some(Inch)
    case "m" | "meters" => Some(Meter)
    case "cm" | "centimeters" => Some(Centimeter)
    case _ => None
  }

  /** The same with the token `inches` that was evidently meant in place of
      `inc hes`. */
  function FromInchesUnitCorrected(token: string): Option<LengthUnit> {
    match token
    case "ft" | "feet" => Some(Foot)
    case "in" | "inches" => Some(Inch)
    case "m" | "meters" => Some(Meter)
    case "cm" | "centimeters" => Some(Centimeter)
    case _ => None
  }

  /** ConvertToInches: the lower-cased token picks the arm; an unknown token
      is an `ArgumentException`. The sign of the value is kept. */
  function ConvertToInches(value: real, unit: string): (r: Result<real>)
    ensures r.Failure? ==> r.error == ToInchesError
    ensures r.Success? ==> (r.value > 0.0 <==> value > 0.0) && (r.value == 0.0 <==> value == 0.0)
  {
    match ToInchesUnit(ToLower(unit))
    case Some(u) => Success(ScaleToInches(value, u))
    case None => Failure(ToInchesError)
  }

  /** ConvertFromInches, as written: the token set is that of
      FromInchesTable. */
  function ConvertFromInches(inches: real, targetUnit: string): (r: Result<real>)
    ensures r.Failure? ==> r.error == FromInchesError
    ensures r.Success? ==> (r.value > 0.0 <==> inches > 0.0) && (r.value == 0.0 <==> inches == 0.0)
  {
    match FromInchesUnit(ToLower(targetUnit))
    case Some(u) => Success(ScaleFromInches(inches, u))
    case None => Failure(FromInchesError)
  }

  /** ConvertFromInches with `inches` in place of `inc hes`. */
  function ConvertFromInchesCorrected(inches: real, targetUnit: string): (r: Result<real>)
    ensures r.Failure? ==> r.error == FromInchesError
    ensures r.Success? ==> (r.value > 0.0 <==> inches > 0.0) && (r.value == 0.0 <==> inches == 0.0)
  {
    match FromInchesUnitCorrected(ToLower(targetUnit))
    case Some(u) => Success(ScaleFromInches(inches, u))
    case None => Failure(FromInchesError)
  }

  /** The token dispatch of ConvertToInches is the table: exactly its tokens
      are accepted, each with its factor. */
  lemma ToInchesUnitAgreesWithTable(token: string)
    ensures ToInchesUnit(token).Some? <==> token in ToInchesTable
    ensures ToInchesUnit(token).Some? ==> InchesPer(ToInchesUnit(token).value) == ToInchesTable[token]
  {
  }

  /** Likewise for ConvertFromInches and its own table. */
  lemma FromInchesUnitAgreesWithTable(token: string)
    ensures FromInchesUnit(token).Some? <==> token in FromInchesTable
    ensures FromInchesUnit(token).Some? ==> InchesPer(FromInchesUnit(token).value) == FromInchesTable[token]
  {
  }

  /** ConvertToInches succeeds exactly on the tokens of the table, in any
      case, and multiplies by the token's factor. */
  lemma ConvertToInchesAgreesWithTable(value: real, unit: string)
    ensures ConvertToInches(value, unit).Failure? <==> ToLower(unit) !in ToInchesTable
    ensures ConvertToInches(value, unit).Success? ==>
              ConvertToInches(value, unit).value == value * ToInchesTable[ToLower(unit)]
  {
    var token := ToLower(unit);
    ToInchesUnitAgreesWithTable(token);
    if token in ToInchesTable {
      ScalingUsesFactor(value, ToInchesUnit(token).value);
    }
  }

  /** ConvertFromInches succeeds exactly on the tokens of its own table and
      divides by the token's factor. */
  lemma ConvertFromInchesAgreesWithTable(inches: real, unit: string)
    ensures ConvertFromInches(inches, unit).Failure? <==> ToLower(unit) !in FromInchesTable
    ensures ConvertFromInches(inches, unit).Success? ==>
              ConvertFromInches(inches, unit).value == inches / FromInchesTable[ToLower(unit)]
  {
    var token := ToLower(unit);
    FromInchesUnitAgreesWithTable(token);
    if token in FromInchesTable {
      ScalingUsesFactor(inches, FromInchesUnit(token).value);
    }
  }

  /** The conversions see the unit only through its lower-case form. */
  lemma SameTokenSameConversion(value: real, unit1: string, unit2: string)
    requires ToLower(unit1) == ToLower(unit2)
    ensures ConvertToInches(value, unit1) == ConvertToInches(value, unit2)
    ensures ConvertFromInches(value, unit1) == ConvertFromInches(value, unit2)
  {
  }

  /** Both conversions ignore the case of the unit token. */
  lemma ConversionIgnoresCase(value: real, unit: string)
    ensures ConvertToInches(value, unit) == ConvertToInches(value, ToLower(unit))
    ensures ConvertFromInches(value, unit) == ConvertFromInches(value, ToLower(unit))
  {
    ToLowerIdempotent(unit);
    SameTokenSameConversion(value, unit, ToLower(unit));
  }

  /** An unknown token makes both conversions fail, each with its own
      message and no value. */
  lemma UnknownUnitFails(value: real, unit: string)
    requires ToLower(unit) !in ToInchesTable && ToLower(unit) !in FromInchesTable
    ensures ConvertToInches(value, unit) == Failure(ToInchesError)
    ensures ConvertFromInches(value, unit) == Failure(FromInchesError)
  {
    ToInchesUnitAgreesWithTable(ToLower(unit));
    FromInchesUnitAgreesWithTable(ToLower(unit));
  }

  /** A token both directions know stands for the same unit. */
  lemma SharedTokensAgree(token: string)
    requires ToInchesUnit(token).Some? && FromInchesUnit(token).Some?
    ensures ToInchesUnit(token) == FromInchesUnit(token)
  {
  }

  /** Converting to inches and back is the identity for every token both
      directions accept, and so is converting from inches and back. */
  lemma RoundTrip(value: real, unit: string)
    requires ToLower(unit) in ToInchesTable && ToLower(unit) in FromInchesTable
    ensures ConvertToInches(value, unit).Success?
    ensures ConvertFromInches(ConvertToInches(value, unit).value, unit) == Success(value)
    ensures ConvertFromInches(value, unit).Success?
    ensures ConvertToInches(ConvertFromInches(value, unit).value, unit) == Success(value)
  {
    var token := ToLower(unit);
    ToInchesUnitAgreesWithTable(token);
    FromInchesUnitAgreesWithTable(token);
    SharedTokensAgree(token);
    var u := ToInchesUnit(token).value;
    ScalingRoundTrip(value, u);
    assert ConvertToInches(value, unit) == Success(ScaleToInches(value, u));
    assert ConvertFromInches(ScaleToInches(value, u), unit) == Success(value);
    assert ConvertFromInches(value, unit) == Success(ScaleFromInches(value, u));
    assert ConvertToInches(ScaleFromInches(value, u), unit) == Success(value);
  }

  /** The token sets of the two directions differ: the conversion from inches
      rejects `inches`, `'` and `"`, and accepts the typo `inc hes`; on the
      tokens they share, the factors agree. */
  lemma ConversionTokenAsymmetry()
    ensures "inches" in ToInchesTable && "'" in ToInchesTable && "\"" in ToInchesTable
    ensures "inches" !in FromInchesTable && "'" !in FromInchesTable && "\"" !in FromInchesTable
    ensures "inc hes" in FromInchesTable && "inc hes" !in ToInchesTable
    ensures forall t :: t in FromInchesTable && t != "inc hes" ==> t in ToInchesTable
    ensures forall t :: t in ToInchesTable && t in FromInchesTable ==> ToInchesTable[t] == FromInchesTable[t]
  {
  }

  /** The round trip through `inches` fails as written: the token converts
      to inches unchanged, but the conversion back rejects it. */
  lemma InchesRoundTripFails(value: real)
    ensures ConvertToInches(value, "inches") == Success(value)
    ensures ConvertFromInches(ConvertToInches(value, "inches").value, "inches") == Failure(FromInchesError)
  {
    LowerIsFixed("inches");
    assert ToInchesUnit("inches") == Some(Inch);
    assert FromInchesUnit("inches") == None;
  }

  /** With the typo fixed, every word token round-trips; only the symbol
      aliases stay one-way. */
  lemma CorrectedRoundTrip(value: real, unit: string)
    requires ToLower(unit) in ToInchesTable && ToLower(unit) !in {"'", "\""}
    ensures ConvertToInches(value, unit).Success?
    ensures ConvertFromInchesCorrected(ConvertToInches(value, unit).value, unit) == Success(value)
  {
    var token := ToLower(unit);
    ToInchesUnitAgreesWithTable(token);
    assert FromInchesUnitCorrected(token) == ToInchesUnit(token);
    var u := ToInchesUnit(token).value;
    ScalingRoundTrip(value, u);
    assert ConvertToInches(value, unit) == Success(ScaleToInches(value, u));
    assert ConvertFromInchesCorrected(ScaleToInches(value, u), unit) == Success(value);
  }

  /** Whether the conversion to inches succeeds does not depend on the
      value; when it does, it keeps strict order both ways, is additive and
      commutes with scaling. */
  lemma ToInchesIsMonotoneAndLinear(a: real, b: real, k: real, unit: string)
    ensures ConvertToInches(a, unit).Success? <==> ConvertToInches(b, unit).Success?
    ensures ConvertToInches(a, unit).Success? ==>
      && (a < b <==> ConvertToInches(a, unit).value < ConvertToInches(b, unit).value)
      && ConvertToInches(a + b, unit).Success?
      && ConvertToInches(a + b, unit).value == ConvertToInches(a, unit).value + ConvertToInches(b, unit).value
      && ConvertToInches(k * a, unit).Success?
      && ConvertToInches(k * a, unit).value == k * ConvertToInches(a, unit).value
  {
    var u := ToInchesUnit(ToLower(unit));
    if u.Some? {
      ScalingIsMonotoneAndLinear(a, b, k, u.value);
    }
  }

  /** The same for the conversion from inches. */
  lemma FromInchesIsMonotoneAndLinear(a: real, b: real, k: real, unit: string)
    ensures ConvertFromInches(a, unit).Success? <==> ConvertFromInches(b, unit).Success?
    ensures ConvertFromInches(a, unit).Success? ==>
      && (a < b <==> ConvertFromInches(a, unit).value < ConvertFromInches(b, unit).value)
      && ConvertFromInches(a + b, unit).Success?
      && ConvertFromInches(a + b, unit).value == ConvertFromInches(a, unit).value + ConvertFromInches(b, unit).value
      && ConvertFromInches(k * a, unit).Success?
      && ConvertFromInches(k * a, unit).value == k * ConvertFromInches(a, unit).value
  {
    var u := FromInchesUnit(ToLower(unit));
    if u.Some? {
      ScalingIsMonotoneAndLinear(a, b, k, u.value);
    }
  }

  // ---------------------------------------------------------------------
  // Feet-and-inches formatting

  /** What the formatter prints, as numbers: whole feet and the inches left
      over (the rendering of the two numbers as text is not modelled). */
  datatype FeetAndInches = FeetAndInches(feet: int, inches: real)

  function Max0(x: real): real { if x < 0.0 then 0.0 else x }

  /** `Math.Floor` of a double, as an integer. */
  function Floor(x: real): int { x.Floor }

  /** The truncated quotient inside C#'s `%` on doubles: the fraction is
      dropped, so the value moves towards zero. */
  function Truncate(q: real): (t: int)
    ensures q >= 0.0 ==> 0.0 <= q - t as real < 1.0
    ensures q <= 0.0 ==> -1.0 < q - t as real <= 0.0
  {
    if q >= 0.0 then q.Floor else -((-q).Floor)
  }

  /** C#'s `x % 12.0` on doubles: the remainder of a division truncated
      towards zero, so it takes the sign of the dividend. */
  function RemainderOfFoot(x: real): (r: real)
    ensures x >= 0.0 ==> 0.0 <= r < 12.0
    ensures x <= 0.0 ==> -12.0 < r <= 0.0
    ensures IsWhole((x - r) / 12.0)
  {
    var t := Truncate(x / 12.0);
    assert (x - (x - 12.0 * t as real)) / 12.0 == t as real;
    x - 12.0 * t as real
  }

  predicate IsWhole(x: real) {
    x.Floor as real == x
  }

  predicate IsHundredths(x: real) {
    IsWhole(x * 100.0)
  }

  /** `Math.Round` to a whole number with the default midpoint rule: the
      nearest integer, a tie going to the even one. */
  function RoundHalfEven(y: real): (n: int)
    ensures -0.5 <= n as real - y <= 0.5
    ensures IsWhole(y) ==> n as real == y
    ensures y - y.Floor as real == 0.5 ==> n % 2 == 0
  {
    var down := y.Floor;
    var fraction := y - down as real;
    if fraction < 0.5 then down
    else if fraction > 0.5 then down + 1
    else if down % 2 == 0 then down else down + 1
  }

  /** Shifting by an even number shifts the rounded value alike, ties
      included. */
  lemma RoundHalfEvenShift(y: real, k: int)
    ensures RoundHalfEven(y + (2 * k) as real) == RoundHalfEven(y) + 2 * k
  {
    assert (y + (2 * k) as real).Floor == y.Floor + 2 * k;
    assert (y.Floor + 2 * k) % 2 == y.Floor % 2;
  }

  /** `Math.Round(x, 2)`: the nearest multiple of 0.01, a tie going to the
      even multiple. */
  function RoundToHundredths(x: real): (r: real)
    ensures IsHundredths(r)
    ensures -0.005 <= r - x <= 0.005
    ensures IsHundredths(x) ==> r == x
  {
    var n := RoundHalfEven(x * 100.0);
    assert (n as real / 100.0) * 100.0 == n as real;
    n as real / 100.0
  }

  /** The two numbers the formatter computes before rounding: negative input
      counts as 0, then whole feet (`Math.Floor`) and the remainder in
      inches (`%`). */
  function SplitFeetAndInches(totalInches: real): (r: FeetAndInches)
    ensures r.feet >= 0 && 0.0 <= r.inches < 12.0
    ensures 12.0 * r.feet as real + r.inches == Max0(totalInches)
  {
    var total := if totalInches < 0.0 then 0.0 else totalInches;
    var feet := Floor(total / 12.0);
    FeetAndInches(feet, RemainderOfFoot(total))
  }

  /** FormatInchesToFeetAndInches, as written: the remainder is rounded to
      hundredths after the split, so it may reach a full 12 inches. */
  function FormatInchesToFeetAndInches(totalInches: real): (r: FeetAndInches)
    ensures r.feet >= 0 && 0.0 <= r.inches <= 12.0 && IsHundredths(r.inches)
    ensures -0.005 <= 12.0 * r.feet as real + r.inches - Max0(totalInches) <= 0.005
    ensures totalInches <= 0.0 ==> r == FeetAndInches(0, 0.0)
    ensures r.feet as real <= Max0(totalInches) / 12.0 < r.feet as real + 1.0
    ensures -0.005 <= r.inches - (Max0(totalInches) - 12.0 * r.feet as real) <= 0.005
  {
    var split := SplitFeetAndInches(totalInches);
    FeetAndInches(split.feet, RoundToHundredths(split.inches))
  }

  /** Just under two feet prints as one foot and twelve inches. */
  lemma FormatCanPrintTwelveInches()
    ensures FormatInchesToFeetAndInches(23.999) == FeetAndInches(1, 12.0)
  {
    assert SplitFeetAndInches(23.999) == FeetAndInches(1, 11.999);
  }

  /** The evidently intended formatter: round the total to hundredths first,
      then split it, so the inches stay below a foot. */
  function FormatInchesToFeetAndInchesCorrected(totalInches: real): (r: FeetAndInches)
    ensures r.feet >= 0 && 0.0 <= r.inches < 12.0 && IsHundredths(r.inches)
    ensures 12.0 * r.feet as real + r.inches == RoundToHundredths(Max0(totalInches))
  {
    var rounded := RoundToHundredths(Max0(totalInches));
    var split := SplitFeetAndInches(rounded);
    HundredthsDifference(rounded, split.feet);
    split
  }

  /** A multiple of 0.01 less whole feet is still a multiple of 0.01. */
  lemma HundredthsDifference(x: real, feet: int)
    requires IsHundredths(x)
    ensures IsHundredths(x - 12.0 * feet as real)
  {
    var n := (x * 100.0).Floor;
    assert x * 100.0 == n as real;
    var m := n - 1200 * feet;
    var y := x - 12.0 * feet as real;
    assert y * 100.0 == x * 100.0 - 1200.0 * feet as real;
    assert y * 100.0 == m as real;
    assert (m as real).Floor == m;
  }

  /** Rounding to hundredths commutes with adding whole feet. */
  lemma RoundingCommutesWithFeet(x: real, feet: int)
    ensures RoundToHundredths(x + 12.0 * feet as real)
         == RoundToHundredths(x) + 12.0 * feet as real
  {
    var shifted := (x + 12.0 * feet as real) * 100.0;
    assert shifted == x * 100.0 + (2 * (600 * feet)) as real;
    RoundHalfEvenShift(x * 100.0, 600 * feet);
  }

  /** Both formatters print the same total length; they differ only when the
      original prints a full foot of inches, which the corrected one carries
      into the feet. */
  lemma CorrectedFormatAgrees(totalInches: real)
    ensures var original := FormatInchesToFeetAndInches(totalInches);
            var corrected := FormatInchesToFeetAndInchesCorrected(totalInches);
            12.0 * corrected.feet as real + corrected.inches
              == 12.0 * original.feet as real + original.inches
            && (original.inches < 12.0 ==> corrected == original)
            && (original.inches == 12.0 ==> corrected == FeetAndInches(original.feet + 1, 0.0))
  {
    var split := SplitFeetAndInches(totalInches);
    RoundingCommutesWithFeet(split.inches, split.feet);
    var rounded := RoundToHundredths(Max0(totalInches));
    assert rounded == RoundToHundredths(split.inches) + 12.0 * split.feet as real;
  }
}
