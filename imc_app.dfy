/**
 * app.py's own index computation and its four categories. `clasificar_imc` probes the imc module for
 * functions it does not define, so the category always comes from this fallback computation.
 */
module ImcApp {
  import opened Cadenas
  import opened Imc

  datatype Categoria = BajoPeso | Normal | Sobrepeso | Obesidad

  /** The category's name as the program spells it. */
  function NombreCategoria(c: Categoria): string {
    match c
    case BajoPeso => "BAJO_PESO"
    case Normal => "NORMAL"
    case Sobrepeso => "SOBREPESO"
    case Obesidad => "OBESIDAD"
  }

  /** `_calc_imc_fallback`: height floored at 0.5 m, then weight / m^2 rounded to 2 decimals. */
  function ImcFallback(pesoKg: real, estaturaCm: real): (imc: real)
    ensures var q := IndiceExacto(pesoKg, Metros(estaturaCm));
            q - 0.005 <= imc <= q + 0.005
  {
    Redondear2(IndiceExacto(pesoKg, Metros(estaturaCm)))
  }

  /** `max(0.5, estatura_cm / 100.0)`. */
  function Metros(estaturaCm: real): (m: real)
    ensures m >= 0.5
  {
    if estaturaCm / 100.0 >= 0.5 then estaturaCm / 100.0 else 0.5
  }

  /** `_clasificar_por_imc_valor`: bands split at 18.5, 25 and 30, a boundary value going to the higher band. */
  function ClasificarPorValor(v: real): Categoria {
    if v < 18.5 then BajoPeso
    else if v < 25.0 then Normal
    else if v < 30.0 then Sobrepeso
    else Obesidad
  }

  /** The rank of a band, lightest first. */
  function Rango(c: Categoria): nat {
    match c
    case BajoPeso => 0
    case Normal => 1
    case Sobrepeso => 2
    case Obesidad => 3
  }

  /** A larger index never falls in a lighter band. */
  lemma ClasificarMonotono(v: real, w: real)
    requires v <= w
    ensures Rango(ClasificarPorValor(v)) <= Rango(ClasificarPorValor(w))
  {
  }

  /** The exact boundary behaviour. */
  lemma ClasificarFronteras()
    ensures ClasificarPorValor(18.49) == BajoPeso && ClasificarPorValor(18.5) == Normal
    ensures ClasificarPorValor(24.99) == Normal && ClasificarPorValor(25.0) == Sobrepeso
    ensures ClasificarPorValor(29.99) == Sobrepeso && ClasificarPorValor(30.0) == Obesidad
  {
  }

  /** imc.es_sobrepeso agrees with the two heaviest bands for every index value. */
  lemma SobrepesoSegunBanda(v: real)
    ensures EsSobrepeso(v) <==> ClasificarPorValor(v) in {Sobrepeso, Obesidad}
  {
  }

  /** `clasificar_imc`, on the path it always takes: the category name of the fallback index. */
  function ClasificarImc(pesoKg: real, estaturaCm: int): (cat: string)
    ensures cat in {"BAJO_PESO", "NORMAL", "SOBREPESO", "OBESIDAD"}
  {
    NombreCategoria(ClasificarPorValor(ImcFallback(pesoKg, estaturaCm as real)))
  }

  /**
   * For a positive weight and a height of at least 50 cm the two computations coincide, so the
   * overweight flag used for rests agrees with the category.
   */
  lemma FallbackCoincide(pesoKg: real, estaturaCm: int)
    requires pesoKg > 0.0 && estaturaCm >= 50
    ensures ImcFallback(pesoKg, estaturaCm as real) == CalcImcCm(pesoKg, estaturaCm as real)
    ensures EsSobrepeso(CalcImcCm(pesoKg, estaturaCm as real)) <==>
            ClasificarImc(pesoKg, estaturaCm) in {"SOBREPESO", "OBESIDAD"}
  {
    assert estaturaCm as real / 100.0 >= 0.5;
  }

  /**
   * Below 50 cm they part: a negative height gives index 0.0 (not overweight) in imc.py but is floored
   * to 0.5 m here, which classifies 70 kg as OBESIDAD.
   */
  lemma FallbackDifiere()
    ensures !EsSobrepeso(CalcImcCm(70.0, -170.0))
    ensures ClasificarImc(70.0, -170) == "OBESIDAD"
  {
    assert ImcFallback(70.0, -170.0) == 280.0 by {
      assert 70.0 / (0.5 * 0.5) == 280.0;
      assert RedondearEntero(28000.0) == 28000;
    }
  }
}
