/**
 * app.py: `_generar_combinado`, the whole generation pipeline (strategy, facade, reshaping by level and
 * type, rest retuning by BMI category, spoken text), and the "give me a different one" retry loop.
 */
module Generacion {
  import opened Wrappers
  import opened Cadenas
  import opened Modelo
  import opened Imc
  import opened ImcApp
  import opened SelectorSets
  import opened ModosRutina
  import opened RutinaCreador
  import opened RutinaServicio
  import opened Ajustes
  import opened Texto

  /** `tipo or "UPPER"`: the type the reshaping is given. */
  function TipoEfectivo(tipo: string): (t: string)
    ensures tipo == "" ==> t == "UPPER"
    ensures tipo != "" ==> t == tipo
  {
    if tipo == "" then "UPPER" else tipo
  }

  /** The steps of the facade routine built around the strategy's choice `s`. */
  function PasosFacade(data: Banco, nivel: string, sobre: bool, s: seq<Paso>): seq<Paso> {
    Intercalar(data.warmup + s + data.cooldown, Descanso(DescansoFacade(nivel, sobre)))
  }

  /** The steps after `ajustar_por_nivel_y_tipo`: an empty routine is kept as it is. */
  function PasosReajustados(ps: seq<Paso>, nivel: string, tipo: string): seq<Paso> {
    if ps == [] then [] else Reajuste(ps, nivel, tipo)
  }

  /** The steps after `ajustar_descansos_por_imc` with the (upper-cased) category `cat`. */
  function Retocados(ps: seq<Paso>, cat: string): (r: seq<Paso>)
    ensures |r| == |ps|
    ensures forall i :: 0 <= i < |ps| ==> r[i] == AjustarDescanso(ps[i], cat)
  {
    seq(|ps|, i requires 0 <= i < |ps| => AjustarDescanso(ps[i], cat))
  }

  /** The final steps of the pipeline, once the strategy has chosen `s`. */
  function PasosCombinados(data: Banco, peso: real, est: int, nivel: string, tipo: string, s: seq<Paso>): seq<Paso> {
    var ensamblados := PasosFacade(data, nivel, Sobre(peso, est as real), s);
    Retocados(PasosReajustados(ensamblados, nivel, TipoEfectivo(tipo)), Mayusculas(ClasificarImc(peso, est)))
  }

  /** The text the pipeline speaks once the strategy has chosen `s`; the title is always the facade's. */
  function TextoCombinado(data: Banco, peso: real, est: int, nivel: string, tipo: string, s: seq<Paso>): string {
    Unir(" ", Partes(Some("Rutina " + tipo + " " + nivel), PasosCombinados(data, peso, est, nivel, tipo, s)))
  }

  /** The texts the pipeline may speak: one for every order the strategy made for `modo` may give. */
  ghost predicate TextoPosible(data: Banco, modo: string, peso: real, est: int, nivel: string, tipo: string, texto: string) {
    exists s :: EsEleccion(CrearStrategy(modo, ElegirSet, None), data, nivel, tipo, Sobre(peso, est as real), s) &&
                texto == TextoCombinado(data, peso, est, nivel, tipo, s)
  }

  /**
   * `_generar_combinado`: build the strategy for `modo`, let the facade assemble the routine, reshape
   * it by level and type, retune its rests by the BMI category, and render it. The template bank
   * read from routines.json is the parameter `data`.
   */
  method GenerarCombinado(data: Banco, modo: string, peso: real, est: int, nivel: string, tipo: string)
    returns (texto: string)
    ensures TextoPosible(data, modo, peso, est, nivel, tipo, texto)
  {
    var strategy := CrearStrategy(modo, ElegirSet, None);
    var facade := new RoutineFacade(data, Some(strategy));
    var rutina := facade.GenerarRutina(nivel, tipo, peso, est as real);
    ghost var s :| EsEleccion(strategy, data, nivel, tipo, Sobre(peso, est as real), s) &&
                   rutina.pasos == PasosFacade(data, nivel, Sobre(peso, est as real), s);
    AjustarPorNivelYTipo(rutina, nivel, TipoEfectivo(tipo));
    assert rutina.pasos == PasosReajustados(PasosFacade(data, nivel, Sobre(peso, est as real), s), nivel, TipoEfectivo(tipo));
    assert rutina.titulo == Some("Rutina " + tipo + " " + nivel);
    var cat := ClasificarImc(peso, est);
    ghost var antes := rutina.pasos;
    AjustarDescansosPorImc(rutina, cat);
    assert rutina.pasos == Retocados(antes, Mayusculas(cat));
    texto := ResumenYTexto(rutina);
    assert texto == TextoCombinado(data, peso, est, nivel, tipo, s);
  }

  /** With the bank's steps all missing, the routine stays empty and only the (stripped) title is spoken. */
  lemma BancoVacioSoloTitulo(data: Banco, modo: string, peso: real, est: int, nivel: string, tipo: string, s: seq<Paso>)
    requires data.warmup == [] && data.cooldown == [] && data.sets == map[]
    requires EsEleccion(CrearStrategy(modo, ElegirSet, None), data, nivel, tipo, Sobre(peso, est as real), s)
    ensures TextoCombinado(data, peso, est, nivel, tipo, s) == Strip("Rutina " + tipo + " " + nivel)
  {
    SinSets([], [], nivel, tipo, Sobre(peso, est as real));
    assert multiset(s) == multiset{};
    assert PasosCombinados(data, peso, est, nivel, tipo, s) == [];
  }

  /**
   * The layout of a routine: `h` warm-ups in front, `n` exercises at the even offsets after them,
   * rests between, and the last step not a rest; without a warm-up the first step is not a rest either.
   */
  ghost predicate Forma(r: seq<Paso>, h: nat, n: nat) {
    n >= 1 && |r| == h + 2 * n - 1 &&
    (h == 1 ==> EsCalentamiento(r[0])) &&
    (forall k :: 0 <= k < n ==> EsEjercicio(r[h + 2 * k])) &&
    (forall k :: 0 <= k < n - 1 ==> EsDescanso(r[h + 2 * k + 1])) &&
    (h == 0 ==> !EsDescanso(r[0])) && !EsDescanso(r[|r| - 1])
  }

  /** A reshaped routine has that layout, with the level's target number of exercises. */
  lemma ReajusteForma(ens: seq<Paso>, nivel: string, tipo: string)
    ensures Cabezas(ens) <= 1
    ensures Forma(Reajuste(ens, nivel, tipo), Cabezas(ens), Objetivo(nivel))
  {
    var q := Reajuste(ens, nivel, tipo);
    var h := Cabezas(ens);
    ReajusteLongitud(ens, nivel, tipo);
    ReajusteExtremos(ens, nivel, tipo);
    ReajusteClasePares(ens, nivel, tipo);
    ReajusteDescansos(ens, nivel, tipo);
    if h == 0 {
      assert EsEjercicio(q[h + 2 * 0]);
    }
  }

  /** Retuning the rests keeps the layout, since no step changes class. */
  lemma RetocadosForma(q: seq<Paso>, cat: string, h: nat, n: nat)
    requires Forma(q, h, n)
    ensures Forma(Retocados(q, cat), h, n)
  {
    var r := Retocados(q, cat);
    forall i | 0 <= i < |q|
      ensures EsDescanso(r[i]) == EsDescanso(q[i]) && EsEjercicio(r[i]) == EsEjercicio(q[i])
      ensures EsCalentamiento(r[i]) == EsCalentamiento(q[i])
    {
      AjustarDescansoConservaClase(q[i], cat);
    }
  }

  /**
   * Every generated routine built from at least one bank step has one warm-up at most in front,
   * the level's target number of exercises at the even offsets after it, one rest between each two,
   * and the last step an exercise. The first step is a rest only if the warm-up kept is titled as one too.
   */
  lemma PasosCombinadosForma(data: Banco, peso: real, est: int, nivel: string, tipo: string, s: seq<Paso>)
    requires data.warmup + s + data.cooldown != []
    ensures var ens := PasosFacade(data, nivel, Sobre(peso, est as real), s);
            Cabezas(ens) <= 1 && Forma(PasosCombinados(data, peso, est, nivel, tipo, s), Cabezas(ens), Objetivo(nivel))
  {
    var ens := PasosFacade(data, nivel, Sobre(peso, est as real), s);
    assert ens != [];
    var q := Reajuste(ens, nivel, TipoEfectivo(tipo));
    ReajusteForma(ens, nivel, TipoEfectivo(tipo));
    RetocadosForma(q, Mayusculas(ClasificarImc(peso, est)), Cabezas(ens), Objetivo(nivel));
  }

  /** 70 kg at 172 cm: index about 23.66, so NORMAL for app.py and not overweight for imc.py. */
  lemma Imc70x172()
    ensures ClasificarImc(70.0, 172) == "NORMAL"
    ensures !Sobre(70.0, 172 as real)
  {
    assert Metros(172 as real) == 1.72;
    assert 23.66 < 70.0 / (1.72 * 1.72) < 23.67;
    assert 23.0 < ImcFallback(70.0, 172 as real) < 24.0;
    assert 23.0 < CalcImcCm(70.0, 172 as real) < 24.0;
  }

  /** When the bank's steps hold no rest, the first rest of the assembled routine is the facade's. */
  lemma PrimerDescansoFacade(xs: seq<Paso>, d: Paso)
    requires |xs| >= 2 && EsDescanso(d)
    requires forall i :: 0 <= i < |xs| ==> !EsDescanso(xs[i])
    ensures Plantilla(Filtrar(Intercalar(xs, d), EsDescanso)) == d
  {
    var ens := Intercalar(xs, d);
    IntercalarPosiciones(xs, d);
    assert ens[2 * 0 + 1] == d && ens[2 * 0] == xs[0];
    FiltrarContenido(ens, EsDescanso);
    assert d in Filtrar(ens, EsDescanso);
    FiltrarPrimero(ens, EsDescanso);
  }

  /** The facade rests level MEDIO like an unknown level: 15 seconds. */
  lemma DescansoMedio()
    ensures DescansoFacade("MEDIO", false) == 15
  {
    assert Mayusculas("MEDIO") == "MEDIO";
  }

  /** A 15-second rest retuned for NORMAL lasts 10 seconds. */
  lemma DescansoNormal(d: Paso)
    requires EsDescanso(d) && d.segundos == 15
    ensures AjustarDescanso(d, Mayusculas("NORMAL")).segundos == 10
  {
    assert Mayusculas("NORMAL") == "NORMAL";
  }

  /** Reshaping a routine assembled from rest-free steps puts the facade's rest at every odd offset after the warm-up. */
  lemma ReajusteConDescansoFacade(xs: seq<Paso>, d: Paso, nivel: string, tipo: string)
    requires |xs| >= 2 && EsDescanso(d)
    requires forall i :: 0 <= i < |xs| ==> !EsDescanso(xs[i])
    ensures forall k :: 0 <= k < Objetivo(nivel) - 1 ==>
              Reajuste(Intercalar(xs, d), nivel, tipo)[Cabezas(Intercalar(xs, d)) + 2 * k + 1] == d
  {
    PrimerDescansoFacade(xs, d);
    ReajusteDescansos(Intercalar(xs, d), nivel, tipo);
  }

  /** Retuning every rest of a routine to the same length: the rests at the first five odd offsets after `h`. */
  lemma RetocadosEnImpares(q: seq<Paso>, d: Paso, h: nat, cat: string, segundos: int)
    requires h + 10 <= |q| && AjustarDescanso(d, cat).segundos == segundos
    requires forall k :: 0 <= k < 5 ==> q[h + 2 * k + 1] == d
    ensures forall k :: 0 <= k < 5 ==> Retocados(q, cat)[h + 2 * k + 1].segundos == segundos
  {
  }

  /** For 70 kg and 172 cm at level MEDIO and type UPPER, the pipeline reshapes the facade routine with 15-second rests and retunes it as NORMAL. */
  lemma CombinadosMedio(data: Banco, s: seq<Paso>)
    requires data.warmup + s + data.cooldown != []
    ensures PasosFacade(data, "MEDIO", false, s) == Intercalar(data.warmup + s + data.cooldown, Descanso(15))
    ensures PasosCombinados(data, 70.0, 172, "MEDIO", "UPPER", s) ==
            Retocados(Reajuste(PasosFacade(data, "MEDIO", false, s), "MEDIO", "UPPER"), Mayusculas("NORMAL"))
  {
    Imc70x172();
    DescansoMedio();
  }

  /** For 70 kg, 172 cm, level MEDIO and type UPPER: the level's 6 exercises with a rest between each two. */
  lemma EscenarioMedioForma(data: Banco, s: seq<Paso>)
    requires data.warmup + s + data.cooldown != []
    ensures Forma(PasosCombinados(data, 70.0, 172, "MEDIO", "UPPER", s), Cabezas(PasosFacade(data, "MEDIO", false, s)), 6)
  {
    Imc70x172();
    PasosCombinadosForma(data, 70.0, 172, "MEDIO", "UPPER", s);
  }

  /** Rest-free steps joined by a 15-second rest, reshaped for MEDIO and retuned as NORMAL: the first five rests last 10 seconds. */
  lemma DescansosMedioNormal(xs: seq<Paso>, d: Paso)
    requires |xs| >= 2 && EsDescanso(d) && d.segundos == 15
    requires forall i :: 0 <= i < |xs| ==> !EsDescanso(xs[i])
    ensures var ens := Intercalar(xs, d);
            var r := Retocados(Reajuste(ens, "MEDIO", "UPPER"), Mayusculas("NORMAL"));
            Cabezas(ens) + 10 <= |r| && forall k :: 0 <= k < 5 ==> r[Cabezas(ens) + 2 * k + 1].segundos == 10
  {
    var ens := Intercalar(xs, d);
    ReajusteLongitud(ens, "MEDIO", "UPPER");
    ReajusteConDescansoFacade(xs, d, "MEDIO", "UPPER");
    DescansoNormal(d);
    RetocadosEnImpares(Reajuste(ens, "MEDIO", "UPPER"), d, Cabezas(ens), Mayusculas("NORMAL"), 10);
  }

  /** For 70 kg, 172 cm, level MEDIO and type UPPER on rest-free bank steps: the first five rests last 10 seconds. */
  lemma EscenarioMedioDescansos(data: Banco, s: seq<Paso>)
    requires |data.warmup + s + data.cooldown| >= 2
    requires forall i :: 0 <= i < |data.warmup + s + data.cooldown| ==> !EsDescanso((data.warmup + s + data.cooldown)[i])
    ensures var h := Cabezas(PasosFacade(data, "MEDIO", false, s));
            var r := PasosCombinados(data, 70.0, 172, "MEDIO", "UPPER", s);
            h + 10 <= |r| && forall k :: 0 <= k < 5 ==> r[h + 2 * k + 1].segundos == 10
  {
    CombinadosMedio(data, s);
    DescansoEsDescanso(15);
    DescansosMedioNormal(data.warmup + s + data.cooldown, Descanso(15));
  }

  /**
   * The end-to-end case of 70 kg, 172 cm, level MEDIO and type UPPER on a bank whose steps hold no
   * rest and number at least two: the level's 6 exercises, a rest between each two, and every rest
   * at 10 seconds (the facade rests MEDIO for 15 seconds, and NORMAL takes 5 off).
   */
  lemma EscenarioMedio(data: Banco, s: seq<Paso>)
    requires |data.warmup + s + data.cooldown| >= 2
    requires forall i :: 0 <= i < |data.warmup + s + data.cooldown| ==> !EsDescanso((data.warmup + s + data.cooldown)[i])
    ensures var ens := PasosFacade(data, "MEDIO", false, s);
            var r := PasosCombinados(data, 70.0, 172, "MEDIO", "UPPER", s);
            var h := Cabezas(ens);
            Forma(r, h, 6) && forall k :: 0 <= k < 5 ==> r[h + 2 * k + 1].segundos == 10
  {
    EscenarioMedioForma(data, s);
    EscenarioMedioDescansos(data, s);
  }

  /** The most generations the retry loop makes. */
  const MaxIntentos: nat := 5

  /** Whether two texts are the same once stripped (the loop's `texto.strip() == prev.strip()`). */
  predicate Repetido(texto: string, prev: string) {
    Strip(texto) == Strip(prev)
  }

  /** The texts the pipeline may speak with the random strategy: any order of the selected set. */
  ghost predicate TextoAleatorio(data: Banco, peso: real, est: int, nivel: string, tipo: string, texto: string) {
    exists s :: EsEleccion(Randomized(ElegirSet), data, nivel, tipo, Sobre(peso, est as real), s) &&
                texto == TextoCombinado(data, peso, est, nivel, tipo, s)
  }

  /**
   * What one attempt of the retry loop gives: a text the random strategy can produce for the level
   * and type it used, which are the session's own in a manual session and drawn from the fixed lists
   * otherwise.
   */
  ghost predicate Regenerada(data: Banco, modo: string, peso: real, est: int, nivel: string, tipo: string,
                             texto: string, nivelUsado: string, tipoUsado: string) {
    TextoAleatorio(data, peso, est, nivelUsado, tipoUsado, texto) &&
    (modo == "manual" ==> nivelUsado == nivel && tipoUsado == tipo) &&
    (modo != "manual" ==> nivelUsado in {"FACIL", "MEDIO", "DIFICIL"} && tipoUsado in {"UPPER", "LOWER"})
  }

  /**
   * One attempt of the retry loop: a manual session regenerates with its own level and type, any
   * other draws a type and a level first; the random strategy is used either way. Also says whether
   * the new text repeats `prev`.
   */
  method Intento(data: Banco, modo: string, peso: real, est: int, nivel: string, tipo: string, prev: string)
    returns (texto: string, nivelUsado: string, tipoUsado: string, repetido: bool)
    ensures Regenerada(data, modo, peso, est, nivel, tipo, texto, nivelUsado, tipoUsado)
    ensures repetido == Repetido(texto, prev)
  {
    nivelUsado, tipoUsado := nivel, tipo;
    if modo != "manual" {
      tipoUsado :| tipoUsado in {"UPPER", "LOWER"};
      nivelUsado :| nivelUsado in {"FACIL", "MEDIO", "DIFICIL"};
    }
    texto := GenerarCombinado(data, "random", peso, est, nivelUsado, tipoUsado);
    ModoRandom("random", ElegirSet);
    repetido := Strip(texto) == Strip(prev);
  }

  /** Every text of `ts` is the same as `prev` once stripped. */
  predicate TodosRepetidos(ts: seq<string>, prev: string)
    decreases |ts|
  {
    ts == [] || (TodosRepetidos(ts[..|ts| - 1], prev) && Repetido(ts[|ts| - 1], prev))
  }

  /** Read element by element: every text of `ts` is a repeat. */
  lemma {:induction false} TodosRepetidosEn(ts: seq<string>, prev: string)
    requires TodosRepetidos(ts, prev)
    ensures forall k :: 0 <= k < |ts| ==> Repetido(ts[k], prev)
    decreases |ts|
  {
    if ts != [] {
      var ini := ts[..|ts| - 1];
      TodosRepetidosEn(ini, prev);
      forall k | 0 <= k < |ts| ensures Repetido(ts[k], prev) {
        if k < |ts| - 1 {
          assert ts[k] == ini[k];
        }
      }
    }
  }

  /**
   * The "no" answer to "do you like the routine?": regenerate until the stripped text differs from
   * the stripped previous text or five attempts are spent, and keep the last text either way.
   * Returns the text, the number of generations, the level and type of the last one, and (ghost)
   * the texts generated before the last one, in order: every one of them was a repeat.
   */
  method OtraRutina(data: Banco, modo: string, peso: real, est: int, nivel: string, tipo: string, prev: string)
    returns (texto: string, intentos: nat, nivelUsado: string, tipoUsado: string, ghost anteriores: seq<string>)
    ensures 1 <= intentos <= MaxIntentos && |anteriores| == intentos - 1
    ensures TodosRepetidos(anteriores, prev)
    ensures intentos < MaxIntentos ==> !Repetido(texto, prev)
    ensures Regenerada(data, modo, peso, est, nivel, tipo, texto, nivelUsado, tipoUsado)
  {
    // The text starts as `prev`, so the loop always makes a first attempt; it stops after an attempt
    // that differs from `prev` or after the fifth.
    intentos := 0;
    anteriores := [];
    while true
      invariant 0 <= intentos < MaxIntentos && |anteriores| == intentos && TodosRepetidos(anteriores, prev)
      decreases MaxIntentos - intentos
    {
      var repetido;
      texto, nivelUsado, tipoUsado, repetido := Intento(data, modo, peso, est, nivel, tipo, prev);
      intentos := intentos + 1;
      if intentos == MaxIntentos || !repetido {
        return;
      }
      TodosRepetidosExtender(anteriores, texto, prev);
      anteriores := anteriores + [texto];
    }
  }

  /** One more repeat keeps every text a repeat. */
  lemma TodosRepetidosExtender(ts: seq<string>, t: string, prev: string)
    requires TodosRepetidos(ts, prev) && Repetido(t, prev)
    ensures TodosRepetidos(ts + [t], prev)
  {
    assert (ts + [t])[..|ts|] == ts;
  }
}
