/** imc.py: the body-mass index of a weight in kilograms and a height in centimetres, and the overweight rule. */
module Imc {

  /**
   * Python's `round(x)` on an exact real: the nearest integer, a tie going to the even neighbour.
   */
  function RedondearEntero(x: real): (r: int)
    ensures x - 0.5 <= r as real <= x + 0.5
  {
    var f := x.Floor;
    var d := x - f as real;
    if d < 0.5 then f
    else if d > 0.5 then f + 1
    else if f % 2 == 0 then f
    else f + 1
  }

  /** Python's `round(x, 2)`: within half a hundredth of `x`. */
  function Redondear2(x: real): (r: real)
    ensures x - 0.005 <= r <= x + 0.005
    ensures x >= 0.0 ==> r >= 0.0
  {
    RedondearEntero(x * 100.0) as real / 100.0
  }

  /** weight / m^2 for a height of `m` metres, before rounding. */
  function IndiceExacto(pesoKg: real, m: real): real
    requires m > 0.0
  {
    pesoKg / (m * m)
  }

  /** `calc_imc_cm`: 0.0 for a non-positive weight or height, else weight / (height in metres)^2 rounded to 2 decimals. */
  function CalcImcCm(pesoKg: real, estaturaCm: real): (imc: real)
    ensures pesoKg <= 0.0 || estaturaCm <= 0.0 ==> imc == 0.0
    ensures imc >= 0.0
    ensures pesoKg > 0.0 && estaturaCm > 0.0 ==>
              var q := IndiceExacto(pesoKg, estaturaCm / 100.0);
              q - 0.005 <= imc <= q + 0.005
  {
    if pesoKg <= 0.0 || estaturaCm <= 0.0 then 0.0
    else
      var m := estaturaCm / 100.0;
      assert m * m > 0.0;
      assert pesoKg / (m * m) > 0.0;
      Redondear2(IndiceExacto(pesoKg, m))
  }

  /** `es_sobrepeso`: an index of 25 or more. */
  predicate EsSobrepeso(imc: real) {
    imc >= 25.0
  }

  /** A non-positive weight or height is never classified overweight. */
  lemma DegeneradoNoSobrepeso(pesoKg: real, estaturaCm: real)
    requires pesoKg <= 0.0 || estaturaCm <= 0.0
    ensures !EsSobrepeso(CalcImcCm(pesoKg, estaturaCm))
  {
  }
}
