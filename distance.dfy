/** The Distance value object: an immutable number of kilometres with
    formatting in kilometres, miles or metres. Kilometres are exact reals. */
module Distance {
  import opened Wrappers
  import Decimal

  const KmToMilesRatio: real := 1.609344

  datatype Distance = Distance(km: real)

  function OfKm(km: real): Distance {
    Distance(km)
  }

  function Zero(): Distance {
    Distance(0.0)
  }

  function ToKmAsFloat(d: Distance): real {
    d.km
  }

  /** PHP's `ceil`. */
  function Ceil(x: real): (c: int)
    ensures x <= c as real < x + 1.0
  {
    -((-x).Floor)
  }

  /** PHP's `round` to an integer: halves go away from zero. */
  function Round(x: real): (r: int)
    ensures -0.5 <= x - r as real <= 0.5
    ensures x - r as real == 0.5 ==> x < 0.0
    ensures x - r as real == -0.5 ==> x > 0.0
  {
    if x >= 0.0 then (x + 0.5).Floor else -((-x + 0.5).Floor)
  }

  /** `sprintf('%.3f', x)`: sign, whole part, '.', three decimals, after
      rounding the magnitude to the nearest thousandth. */
  function Fixed3(x: real): (s: string)
    ensures |s| >= 5 && s[|s| - 4] == '.' && Decimal.AllDigits(s[|s| - 3..])
    ensures s[0] == '-' <==> x < 0.0
  {
    var q: nat := Round(if x < 0.0 then -x * 1000.0 else x * 1000.0);
    (if x < 0.0 then "-" else "") + Decimal.NatToString(q / 1000) + "." + Decimal.ThreeDigits(q % 1000)
  }

  /** The rule shared by kilometres and miles: an integral value is printed
      with `%d` of its rounding, any other with `%.3f`. */
  function FormatNumber(x: real, suffix: string): string {
    if x == Ceil(x) as real then Decimal.IntToString(Round(x)) + suffix
    else Fixed3(x) + suffix
  }

  function FormatAs(d: Distance, unit: string): (r: Result<string>)
    ensures r.Err? <==> unit != "km" && unit != "miles" && unit != "m"
    ensures r.Err? ==> r.error == InvalidArgument("Invalid unit " + unit)
  {
    if unit == "km" then Ok(FormatNumber(d.km, "km"))
    else if unit == "miles" then Ok(FormatNumber(d.km / KmToMilesRatio, "miles"))
    else if unit == "m" then Ok(Decimal.IntToString(Round(d.km * 1000.0)) + "m")
    else Err(InvalidArgument("Invalid unit " + unit))
  }

  // ---------------------------------------------------------------- properties

  lemma OfKmRoundTrip(km: real)
    ensures ToKmAsFloat(OfKm(km)) == km
    ensures ToKmAsFloat(Zero()) == 0.0
  {
  }

  /** An integral number of kilometres prints as that integer and "km". */
  lemma FormatIntegralKm(n: int)
    ensures FormatAs(OfKm(n as real), "km") == Ok(Decimal.IntToString(n) + "km")
  {
    assert Ceil(n as real) == n;
    assert Round(n as real) == n;
  }

  /** A non-integral number of kilometres prints with three decimals. */
  lemma FormatFractionalKm(km: real)
    requires km != Ceil(km) as real
    ensures FormatAs(OfKm(km), "km") == Ok(Fixed3(km) + "km")
  {
  }

  /** The number `Fixed3` prints, read back digit by digit. */
  function ReadFixed3(s: string): real
    requires |s| >= 5 && s[|s| - 4] == '.' && Decimal.AllDigits(s[|s| - 3..])
    requires s[0] == '-' ==> Decimal.AllDigits(s[1..|s| - 4])
    requires s[0] != '-' ==> Decimal.AllDigits(s[..|s| - 4])
  {
    var whole := if s[0] == '-' then s[1..|s| - 4] else s[..|s| - 4];
    var magnitude := Decimal.ParseNat(whole) as real + Decimal.ParseNat(s[|s| - 3..]) as real / 1000.0;
    if s[0] == '-' then -magnitude else magnitude
  }

  /** The three-decimal text reads back within half a thousandth of the number. */
  lemma {:induction false} Fixed3Accuracy(x: real)
    ensures var s := Fixed3(x);
      && (s[0] == '-' ==> Decimal.AllDigits(s[1..|s| - 4]))
      && (s[0] != '-' ==> Decimal.AllDigits(s[..|s| - 4]))
      && -0.0005 <= ReadFixed3(s) - x <= 0.0005
  {
    var q: nat := Round(if x < 0.0 then -x * 1000.0 else x * 1000.0);
    var whole := Decimal.NatToString(q / 1000);
    var frac := Decimal.ThreeDigits(q % 1000);
    var s := Fixed3(x);
    var sign := if x < 0.0 then "-" else "";
    var head := sign + whole;
    var tail := "." + frac;
    assert s == head + tail && |tail| == 4;
    assert s[..|s| - 4] == head;
    assert s[|s| - 3..] == tail[1..] == frac;
    if x < 0.0 {
      assert s[1..|s| - 4] == head[1..] == whole;
    } else {
      assert head == whole;
    }
    Decimal.ParseNatToString(q / 1000);
    assert (q / 1000) as real + (q % 1000) as real / 1000.0 == q as real / 1000.0;
  }

  /** A distance that is a whole number of miles prints as that integer and "miles". */
  lemma FormatIntegralMiles(km: real, n: int)
    requires km / KmToMilesRatio == n as real
    ensures FormatAs(OfKm(km), "miles") == Ok(Decimal.IntToString(n) + "miles")
  {
    assert Ceil(n as real) == n && Round(n as real) == n;
  }

  /** Any other distance prints its miles with three decimals. */
  lemma FormatFractionalMiles(km: real)
    requires km / KmToMilesRatio != Ceil(km / KmToMilesRatio) as real
    ensures FormatAs(OfKm(km), "miles") == Ok(Fixed3(km / KmToMilesRatio) + "miles")
  {
  }

  /** Metres are the kilometres times 1000, rounded to the nearest integer
      with halves away from zero, followed by "m". */
  lemma FormatMetres(km: real)
    ensures exists r: int ::
      && FormatAs(OfKm(km), "m") == Ok(Decimal.IntToString(r) + "m")
      && -0.5 <= km * 1000.0 - r as real <= 0.5
      && (km * 1000.0 - r as real == 0.5 ==> km < 0.0)
      && (km * 1000.0 - r as real == -0.5 ==> km > 0.0)
  {
    var r := Round(km * 1000.0);
    assert FormatAs(OfKm(km), "m") == Ok(Decimal.IntToString(r) + "m");
  }

  /** The examples the unit tests assert for 100 km. */
  lemma FormatKmExample()
    ensures FormatAs(OfKm(100.0), "km") == Ok("100km")
  {
    FormatIntegralKm(100);
    assert Decimal.NatToString(10) == "10";
    assert Decimal.IntToString(100) == "100";
    assert "100" + "km" == "100km";
  }

  lemma FormatMilesExample()
    ensures FormatAs(OfKm(100.0), "miles") == Ok("62.137miles")
  {
    var miles := 100.0 / KmToMilesRatio;
    assert 62.137 < miles < 62.1372;
    assert Ceil(miles) == 63;
    assert Round(miles * 1000.0) == 62137;
    assert Decimal.NatToString(62) == "62" by {
      assert Decimal.NatToString(6) == "6";
    }
    assert Decimal.ThreeDigits(137) == "137";
    assert Fixed3(miles) == "62" + "." + "137";
    assert "62" + "." + "137" + "miles" == "62.137miles";
  }

  lemma FormatMetresExample()
    ensures FormatAs(OfKm(100.0), "m") == Ok("100000m")
    ensures FormatAs(OfKm(100.0), "ultra meters").Err?
  {
    assert Round(100.0 * 1000.0) == 100000;
    assert Decimal.NatToString(100000) == "100000" by {
      assert Decimal.NatToString(10) == "10";
      assert Decimal.NatToString(100) == "100";
      assert Decimal.NatToString(1000) == "1000";
      assert Decimal.NatToString(10000) == "10000";
    }
    assert "100000" + "m" == "100000m";
  }
}
