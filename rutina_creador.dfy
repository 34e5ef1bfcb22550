/** rutina_creador.py: a routine from the template bank, with a rest between consecutive steps. */
module RutinaCreador {
  import opened Wrappers
  import opened Cadenas
  import opened Modelo
  import opened SelectorSets

  /** `segundos_descanso`: 15, 20 or 25 seconds for FACIL, MEDIO or DIFICIL (any case), 15 otherwise, plus 5 when overweight. */
  function SegundosDescanso(nivel: string, sobrepeso: bool): (r: int)
    ensures r in {15, 20, 25, 30}
    ensures sobrepeso ==> r >= 20
    ensures !sobrepeso ==> r <= 25
  {
    var n := Mayusculas(nivel);
    var base := if n == "FACIL" then 15 else if n == "MEDIO" then 20 else if n == "DIFICIL" then 25 else 15;
    if sobrepeso then base + 5 else base
  }

  /** Being overweight adds exactly five seconds, at every level. */
  lemma SobrepesoSumaCinco(nivel: string)
    ensures SegundosDescanso(nivel, true) == SegundosDescanso(nivel, false) + 5
  {
  }

  /** The table, read in either letter case; an unknown or absent level rests like FACIL. */
  lemma SegundosDescansoTabla(sobrepeso: bool)
    ensures SegundosDescanso("FACIL", false) == 15 && SegundosDescanso("facil", false) == 15
    ensures SegundosDescanso("MEDIO", false) == 20 && SegundosDescanso("medio", false) == 20
    ensures SegundosDescanso("DIFICIL", false) == 25 && SegundosDescanso("dificil", false) == 25
    ensures SegundosDescanso("", sobrepeso) == SegundosDescanso("FACIL", sobrepeso)
    ensures SegundosDescanso("INTERMEDIO", sobrepeso) == SegundosDescanso("FACIL", sobrepeso)
  {
    assert Mayusculas("FACIL") == "FACIL";
    assert Mayusculas("MEDIO") == "MEDIO";
    assert Mayusculas("DIFICIL") == "DIFICIL";
    assert Mayusculas("facil") == "FACIL";
    assert Mayusculas("medio") == "MEDIO";
    assert Mayusculas("dificil") == "DIFICIL";
    var im := Mayusculas("INTERMEDIO");
    assert |im| == 10;
  }

  /** The rest step inserted between two steps. */
  function Descanso(segundos: int): (p: Paso)
    ensures p.segundos == segundos
  {
    Paso("Descanso", segundos, "Hidrátate y respira.")
  }

  /** The inserted step is a rest and not a warm-up: its lower-cased title is "descanso". */
  lemma DescansoEsDescanso(segundos: int)
    ensures EsDescanso(Descanso(segundos)) && !EsCalentamiento(Descanso(segundos))
  {
    var p := Descanso(segundos);
    assert Minusculas(p.title) == "descanso";
    assert Contiene("descanso", "descanso") by { assert CoincideEn("descanso", "descanso", 0, 0); }
    SinLetra("descanso", "calent", 'l');
  }

  /** `insertar_descansos`: each step is kept in order and followed by a rest, except the last one. */
  method InsertarDescansos(pasos: seq<Paso>, descansoS: int) returns (out: seq<Paso>)
    ensures out == Intercalar(pasos, Descanso(descansoS))
  {
    var d := Descanso(descansoS);
    out := [];
    var i := 0;
    while i < |pasos|
      invariant 0 <= i <= |pasos|
      invariant out == Intercalar(pasos[..i], d) + (if 0 < i < |pasos| then [d] else [])
    {
      IntercalarExtender(pasos, d, i);
      out := out + [pasos[i]];
      if i < |pasos| - 1 {
        out := out + [d];
      }
      i := i + 1;
    }
    assert pasos[..i] == pasos;
  }

  /** The steps of `crear_rutina_desde_data`: warm-up, chosen set and cool-down, with rests between them. */
  function PasosCreados(data: Banco, nivel: string, tipo: string, sobrepeso: bool): seq<Paso> {
    Intercalar(data.warmup + ElegirSet(data, nivel, tipo, sobrepeso) + data.cooldown,
               Descanso(SegundosDescanso(nivel, sobrepeso)))
  }

  /** `crear_rutina_desde_data`: a new routine titled "Rutina <tipo> <nivel>". */
  method CrearRutinaDesdeData(data: Banco, nivel: string, tipo: string, sobrepeso: bool) returns (r: Rutina)
    ensures fresh(r)
    ensures r.titulo == Some("Rutina " + tipo + " " + nivel)
    ensures r.pasos == PasosCreados(data, nivel, tipo, sobrepeso)
  {
    var setMain := ElegirSet(data, nivel, tipo, sobrepeso);
    var titulo := "Rutina " + tipo + " " + nivel;
    var pasos := data.warmup + setMain + data.cooldown;
    pasos := InsertarDescansos(pasos, SegundosDescanso(nivel, sobrepeso));
    r := new Rutina(Some(titulo), pasos);
  }

  /** Interleaving three blocks puts each block's elements at the even positions after the earlier blocks. */
  lemma IntercalarBloques(a: seq<Paso>, b: seq<Paso>, c: seq<Paso>, sep: Paso)
    ensures forall i :: 0 <= i < |a| ==> Intercalar(a + b + c, sep)[2 * i] == a[i]
    ensures forall i :: 0 <= i < |b| ==> Intercalar(a + b + c, sep)[2 * (|a| + i)] == b[i]
    ensures forall i :: 0 <= i < |c| ==> Intercalar(a + b + c, sep)[2 * (|a| + |b| + i)] == c[i]
    ensures forall i :: 0 <= i < |a| + |b| + |c| - 1 ==> Intercalar(a + b + c, sep)[2 * i + 1] == sep
  {
    var xs := a + b + c;
    IntercalarPosiciones(xs, sep);
    forall i | 0 <= i < |b| ensures Intercalar(xs, sep)[2 * (|a| + i)] == b[i] {
      assert xs[|a| + i] == b[i];
    }
    forall i | 0 <= i < |c| ensures Intercalar(xs, sep)[2 * (|a| + |b| + i)] == c[i] {
      assert xs[|a| + |b| + i] == c[i];
    }
  }

  /**
   * The shape of a created routine: the bank's steps at the even positions in order (warm-up, then
   * the set, then the cool-down) and the level's rest at every odd position.
   */
  lemma PasosCreadosForma(data: Banco, nivel: string, tipo: string, sobrepeso: bool)
    ensures var s := ElegirSet(data, nivel, tipo, sobrepeso);
            var r := PasosCreados(data, nivel, tipo, sobrepeso);
            var n := |data.warmup| + |s| + |data.cooldown|;
            |r| == (if n == 0 then 0 else 2 * n - 1) &&
            (forall i :: 0 <= i < |data.warmup| ==> r[2 * i] == data.warmup[i]) &&
            (forall i :: 0 <= i < |s| ==> r[2 * (|data.warmup| + i)] == s[i]) &&
            (forall i :: 0 <= i < |data.cooldown| ==> r[2 * (|data.warmup| + |s| + i)] == data.cooldown[i]) &&
            (forall i :: 0 <= i < n - 1 ==> r[2 * i + 1] == Descanso(SegundosDescanso(nivel, sobrepeso)))
  {
    IntercalarBloques(data.warmup, ElegirSet(data, nivel, tipo, sobrepeso), data.cooldown,
                      Descanso(SegundosDescanso(nivel, sobrepeso)));
  }
}
