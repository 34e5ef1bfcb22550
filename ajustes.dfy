/**
 * app.py: the reshaping of a generated routine by level and type, the level scaling of exercise
 * durations, the BMI retuning of rests, and the deterministic fallback routine.
 */
module Ajustes {
  import opened Wrappers
  import opened Cadenas
  import opened Modelo
  import opened Imc

  /** POOL_UPPER: the upper-body exercises used to pad a short routine. */
  const PoolUpper: seq<Paso> := [
    Paso("Flexiones", 30, "Espalda recta."),
    Paso("Remo invertido", 30, "Escápulas atrás."),
    Paso("Fondos en banco", 30, "Codos hacia atrás."),
    Paso("Pike push up", 30, "Cadera arriba.")
  ]

  /** POOL_LOWER: the lower-body exercises used to pad a short routine. */
  const PoolLower: seq<Paso> := [
    Paso("Sentadillas", 30, "Talones al suelo."),
    Paso("Zancadas", 30, "Alterna piernas."),
    Paso("Puente de glúteo", 30, "Aprieta al subir."),
    Paso("Elevación de talones", 30, "Sube y baja controlado.")
  ]

  /** A title lacking one letter of each keyword is an exercise title. */
  lemma EjercicioPorLetras(p: Paso, d: char, a: char, r: char, c: char)
    requires d in "descanso" && d !in Minusculas(p.title)
    requires a in "pausa" && a !in Minusculas(p.title)
    requires r in "rest" && r !in Minusculas(p.title)
    requires c in "calent" && c !in Minusculas(p.title)
    ensures EsEjercicio(p)
  {
    SinLetra(Minusculas(p.title), "descanso", d);
    SinLetra(Minusculas(p.title), "pausa", a);
    SinLetra(Minusculas(p.title), "rest", r);
    SinLetra(Minusculas(p.title), "calent", c);
  }

  /** "descanso" does not occur in "fondos en banco", although each of its letters does. */
  lemma FondosSinDescanso(h: string, n: string)
    requires h == "fondos en banco" && n == "descanso"
    ensures !Contiene(h, n)
  {
    NoCabeDesde(h, n, 8);
    var i := 7;
    while i >= 0
      invariant -1 <= i <= 7
      invariant !ContieneDesde(h, n, i + 1)
    {
      assert !CoincideEn(h, n, i, 0) by {
        if i == 3 {
          assert h[i + 1] != n[1];
        }
      }
      i := i - 1;
    }
    NoContiene(h, n);
  }

  /** Neither "descanso" nor "calent" occurs in "elevación de talones". */
  lemma ElevacionSinClaves(h: string, n: string, m: string)
    requires h == "elevación de talones" && n == "descanso" && m == "calent"
    ensures !Contiene(h, n) && !Contiene(h, m)
  {
    NoCabeDesde(h, n, 13);
    var i := 12;
    while i >= 0
      invariant -1 <= i <= 12
      invariant !ContieneDesde(h, n, i + 1)
    {
      assert !CoincideEn(h, n, i, 0) by {
        if i == 10 {
          assert h[i + 2] != n[2];
          assert !CoincideEn(h, n, i, 2);
        }
      }
      i := i - 1;
    }
    NoContiene(h, n);
    NoCabeDesde(h, m, 15);
    i := 14;
    while i >= 0
      invariant -1 <= i <= 14
      invariant !ContieneDesde(h, m, i + 1)
    {
      assert !CoincideEn(h, m, i, 0) by {
        if i == 5 {
          assert h[i + 1] != m[1];
        }
      }
      i := i - 1;
    }
    NoContiene(h, m);
  }

  lemma FlexionesEjercicio() ensures EsEjercicio(PoolUpper[0]) {
    EjercicioPorLetras(PoolUpper[0], 'd', 'p', 'r', 'c');
  }

  lemma RemoEjercicio() ensures EsEjercicio(PoolUpper[1]) {
    EjercicioPorLetras(PoolUpper[1], 'c', 'p', 's', 'c');
  }

  lemma FondosEjercicio() ensures EsEjercicio(PoolUpper[2]) {
    var f := Minusculas(PoolUpper[2].title);
    assert f == "fondos en banco";
    FondosSinDescanso(f, "descanso");
    SinLetra(f, "pausa", 'p');
    SinLetra(f, "rest", 'r');
    SinLetra(f, "calent", 'l');
  }

  lemma PikeEjercicio() ensures EsEjercicio(PoolUpper[3]) {
    EjercicioPorLetras(PoolUpper[3], 'd', 'a', 'r', 'c');
  }

  lemma SentadillasEjercicio() ensures EsEjercicio(PoolLower[0]) {
    EjercicioPorLetras(PoolLower[0], 'c', 'p', 'r', 'c');
  }

  lemma ZancadasEjercicio() ensures EsEjercicio(PoolLower[1]) {
    EjercicioPorLetras(PoolLower[1], 'e', 'p', 'r', 'l');
  }

  lemma PuenteEjercicio() ensures EsEjercicio(PoolLower[2]) {
    EjercicioPorLetras(PoolLower[2], 's', 'a', 'r', 'c');
  }

  lemma ElevacionMinusculas() ensures Minusculas(PoolLower[3].title) == "elevación de talones" {
  }

  lemma ElevacionEjercicio() ensures EsEjercicio(PoolLower[3]) {
    var e := Minusculas(PoolLower[3].title);
    ElevacionMinusculas();
    ElevacionSinClaves(e, "descanso", "calent");
    SinLetra(e, "pausa", 'p');
    SinLetra(e, "rest", 'r');
  }

  /** Every pool entry is classified as an exercise (neither a rest nor a warm-up). */
  lemma PoolUpperSonEjercicios()
    ensures forall i :: 0 <= i < |PoolUpper| ==> EsEjercicio(PoolUpper[i])
  {
    forall i | 0 <= i < |PoolUpper| ensures EsEjercicio(PoolUpper[i]) {
      if i == 0 { FlexionesEjercicio(); }
      else if i == 1 { RemoEjercicio(); }
      else if i == 2 { FondosEjercicio(); }
      else { PikeEjercicio(); }
    }
  }

  lemma PoolLowerSonEjercicios()
    ensures forall i :: 0 <= i < |PoolLower| ==> EsEjercicio(PoolLower[i])
  {
    forall i | 0 <= i < |PoolLower| ensures EsEjercicio(PoolLower[i]) {
      if i == 0 { SentadillasEjercicio(); }
      else if i == 1 { ZancadasEjercicio(); }
      else if i == 2 { PuenteEjercicio(); }
      else { ElevacionEjercicio(); }
    }
  }

  /** The padding pool of a type: POOL_UPPER for exactly "UPPER", POOL_LOWER for anything else. */
  function Pool(tipo: string): (pool: seq<Paso>)
    ensures |pool| == 4
    ensures forall i :: 0 <= i < |pool| ==> EsEjercicio(pool[i]) && pool[i].segundos == 30
  {
    PoolUpperSonEjercicios();
    PoolLowerSonEjercicios();
    if tipo == "UPPER" then PoolUpper else PoolLower
  }

  /** The target exercise count: 4, 6 or 8 for exactly "FACIL", "MEDIO" or "DIFICIL", 6 for anything else. */
  function Objetivo(nivel: string): (n: nat)
    ensures n in {4, 6, 8}
    ensures n == 4 <==> nivel == "FACIL"
    ensures n == 8 <==> nivel == "DIFICIL"
  {
    if nivel == "FACIL" then 4 else if nivel == "MEDIO" then 6 else if nivel == "DIFICIL" then 8 else 6
  }

  /** The level is matched exactly: lower-case or unknown levels count as the middle one. */
  lemma ObjetivoTabla()
    ensures Objetivo("FACIL") == 4 && Objetivo("MEDIO") == 6 && Objetivo("DIFICIL") == 8
    ensures Objetivo("facil") == 6 && Objetivo("INTERMEDIO") == 6 && Objetivo("") == 6
  {
  }

  /** `n` copies taken cyclically from the pool. */
  function Ciclo(pool: seq<Paso>, n: nat): seq<Paso>
    requires |pool| > 0
  {
    seq(n, i requires 0 <= i < n => pool[i % |pool|])
  }

  /**
   * The truncate-or-pad step of `ajustar_por_nivel_y_tipo`: the first `obj` exercises when there
   * are too many; otherwise pool copies appended cyclically until there are `obj`, but never more
   * than two rounds of the pool.
   */
  function Rellenar(exs: seq<Paso>, obj: nat, pool: seq<Paso>): (r: seq<Paso>)
    requires |pool| > 0
    ensures |r| == Min(obj, |exs| + 2 * |pool|)
    ensures forall i :: 0 <= i < |r| && i < |exs| ==> r[i] == exs[i]
    ensures forall i :: |exs| <= i < |r| ==> r[i] == pool[(i - |exs|) % |pool|]
  {
    if |exs| > obj then exs[..obj]
    else if |exs| < obj then exs + Ciclo(pool, Min(obj - |exs|, 2 * |pool|))
    else exs
  }

  /** The two-round guard never stops the padding short: the target count is always reached. */
  lemma RellenarCompleto(exs: seq<Paso>, nivel: string, tipo: string)
    ensures |Rellenar(exs, Objetivo(nivel), Pool(tipo))| == Objetivo(nivel)
  {
  }

  /**
   * `normalizar_segundos_ejercicio`: a rest is returned as it is; an exercise gets its seconds scaled
   * by 0.8 with a floor of 20 (FACIL), kept with a floor of 25 (MEDIO), scaled by 1.2 with a floor of
   * 35 (DIFICIL), or kept (any other level).
   */
  function NormalizarSegundosEjercicio(p: Paso, nivel: string): (q: Paso)
    ensures q.title == p.title && q.decir == p.decir
    ensures EsDescanso(p) || nivel !in {"FACIL", "MEDIO", "DIFICIL"} ==> q == p
    ensures !EsDescanso(p) && nivel == "FACIL" ==>
              var x := p.segundos as real * 0.8;
              q.segundos >= 20 && (q.segundos == 20 || x - 0.5 <= q.segundos as real <= x + 0.5)
    ensures !EsDescanso(p) && nivel == "MEDIO" ==> q.segundos == Max(25, p.segundos)
    ensures !EsDescanso(p) && nivel == "DIFICIL" ==>
              var x := p.segundos as real * 1.2;
              q.segundos >= 35 && (q.segundos == 35 || x - 0.5 <= q.segundos as real <= x + 0.5)
  {
    if EsDescanso(p) then p
    else
      var b := p.segundos;
      var s := if nivel == "FACIL" then Max(20, RedondearEntero(b as real * 0.8))
               else if nivel == "MEDIO" then Max(25, RedondearEntero(b as real * 1.0))
               else if nivel == "DIFICIL" then Max(35, RedondearEntero(b as real * 1.2))
               else b;
      p.(segundos := s)
  }

  /** A 30-second pool exercise lasts 24, 30 or 36 seconds at the three levels. */
  lemma NormalizarPool(p: Paso)
    requires !EsDescanso(p) && p.segundos == 30
    ensures NormalizarSegundosEjercicio(p, "FACIL").segundos == 24
    ensures NormalizarSegundosEjercicio(p, "MEDIO").segundos == 30
    ensures NormalizarSegundosEjercicio(p, "DIFICIL").segundos == 36
  {
    assert RedondearEntero(24.0) == 24;
    assert RedondearEntero(36.0) == 36;
  }

  /** Scaling keeps a step's classification, since the title is untouched. */
  lemma NormalizarConservaClase(p: Paso, nivel: string)
    ensures EsDescanso(NormalizarSegundosEjercicio(p, nivel)) == EsDescanso(p)
    ensures EsEjercicio(NormalizarSegundosEjercicio(p, nivel)) == EsEjercicio(p)
  {
  }

  /** The exercises after scaling (the list comprehension of `ajustar_por_nivel_y_tipo`). */
  function Normalizados(xs: seq<Paso>, nivel: string): (r: seq<Paso>)
    ensures |r| == |xs|
  {
    seq(|xs|, i requires 0 <= i < |xs| => NormalizarSegundosEjercicio(xs[i], nivel))
  }

  /** The rest used when the routine has none: "Descanso", 20 seconds, no cue. */
  const DescansoPorDefecto: Paso := Paso("Descanso", 20, "")

  lemma DescansoPorDefectoEsDescanso()
    ensures EsDescanso(DescansoPorDefecto) && !EsCalentamiento(DescansoPorDefecto)
  {
    var t := Minusculas(DescansoPorDefecto.title);
    assert t == "descanso";
    assert CoincideEn(t, "descanso", 0, 0);
    SinLetra(t, "calent", 'l');
  }

  /** `next((r for r in rests), default)`: the first rest of the routine, or the default rest. */
  function Plantilla(rests: seq<Paso>): (p: Paso)
    ensures rests != [] ==> p == rests[0]
    ensures (forall i :: 0 <= i < |rests| ==> EsDescanso(rests[i])) ==> EsDescanso(p)
  {
    DescansoPorDefectoEsDescanso();
    if rests != [] then rests[0] else DescansoPorDefecto
  }

  /** The warm-up kept at the front: the first one found, if any. */
  function Cabeza(calent: seq<Paso>): (r: seq<Paso>)
    ensures |r| == if calent == [] then 0 else 1
    ensures calent != [] ==> r[0] == calent[0]
  {
    if calent != [] then [calent[0]] else []
  }

  /** The exercises of the rebuilt routine: the routine's own, truncated or padded to the target, then scaled. */
  function Ejercicios(ps: seq<Paso>, nivel: string, tipo: string): seq<Paso> {
    Normalizados(Rellenar(Filtrar(ps, EsEjercicio), Objetivo(nivel), Pool(tipo)), nivel)
  }

  /** The steps `ajustar_por_nivel_y_tipo` rebuilds from a non-empty routine. */
  function Reajuste(ps: seq<Paso>, nivel: string, tipo: string): seq<Paso> {
    Cabeza(Filtrar(ps, EsCalentamiento)) + Intercalar(Ejercicios(ps, nivel, tipo), Plantilla(Filtrar(ps, EsDescanso)))
  }

  /** The truncate-or-pad step as the source performs it, appending one pool copy per iteration. */
  method RecortarORellenar(exs: seq<Paso>, objetivo: nat, pool: seq<Paso>) returns (r: seq<Paso>)
    requires |pool| > 0
    ensures r == Rellenar(exs, objetivo, pool)
  {
    r := exs;
    if |r| > objetivo {
      r := r[..objetivo];
    } else if |r| < objetivo {
      var i := 0;
      while |r| < objetivo && i < |pool| * 2
        invariant 0 <= i <= 2 * |pool|
        invariant |exs| + i <= objetivo
        invariant r == exs + Ciclo(pool, i)
        decreases 2 * |pool| - i
      {
        r := r + [pool[i % |pool|]];
        i := i + 1;
      }
      assert i == Min(objetivo - |exs|, 2 * |pool|);
    }
  }

  /** The title `ajustar_por_nivel_y_tipo` gives a routine that has none. */
  function TituloAjustado(tipo: string, nivel: string): string {
    "Rutina " + Titulo(tipo) + " - " + Titulo(nivel)
  }

  /**
   * `ajustar_por_nivel_y_tipo`. An empty routine is left as it is. Otherwise the steps are rebuilt
   * as the first warm-up, then the padded or truncated and scaled exercises with a copy of the first
   * rest between each two; a missing title is filled in and an existing one kept.
   */
  method AjustarPorNivelYTipo(rutina: Rutina, nivel: string, tipo: string)
    modifies rutina
    ensures old(rutina.pasos) == [] ==> rutina.pasos == [] && rutina.titulo == old(rutina.titulo)
    ensures old(rutina.pasos) != [] ==> rutina.pasos == Reajuste(old(rutina.pasos), nivel, tipo)
    ensures old(rutina.pasos) != [] ==>
              rutina.titulo == if old(rutina.titulo).None? then Some(TituloAjustado(tipo, nivel)) else old(rutina.titulo)
  {
    var pasos := rutina.pasos;
    if pasos == [] {
      return;
    }
    var calent := Filtrar(pasos, EsCalentamiento);
    var rests := Filtrar(pasos, EsDescanso);
    var exs := Filtrar(pasos, EsEjercicio);
    var objetivo := Objetivo(nivel);
    exs := RecortarORellenar(exs, objetivo, Pool(tipo));
    var normalizados := Normalizados(exs, nivel);
    var plantilla := Plantilla(rests);
    var nueva := IntercalarTras(Cabeza(calent), normalizados, plantilla);
    rutina.pasos := nueva;
    if rutina.titulo.None? {
      rutina.titulo := Some(TituloAjustado(tipo, nivel));
    }
  }

  /** The padded exercises are all exercises, and so are they after scaling. */
  lemma RellenadosSonEjercicios(ps: seq<Paso>, nivel: string, tipo: string)
    ensures |Ejercicios(ps, nivel, tipo)| == Objetivo(nivel)
    ensures forall k :: 0 <= k < |Ejercicios(ps, nivel, tipo)| ==> EsEjercicio(Ejercicios(ps, nivel, tipo)[k])
  {
    var exs := Filtrar(ps, EsEjercicio);
    var pool := Pool(tipo);
    var rell := Rellenar(exs, Objetivo(nivel), pool);
    RellenarCompleto(exs, nivel, tipo);
    forall k | 0 <= k < |rell| ensures EsEjercicio(NormalizarSegundosEjercicio(rell[k], nivel)) {
      NormalizarConservaClase(rell[k], nivel);
      if k >= |exs| {
        assert rell[k] == pool[(k - |exs|) % |pool|];
      }
    }
  }

  /** The number of warm-ups a reshaped routine keeps: one if the routine had any, else none. */
  function Cabezas(ps: seq<Paso>): nat {
    |Cabeza(Filtrar(ps, EsCalentamiento))|
  }

  /** A reshaped routine has one warm-up at most, the target number of exercises and one rest fewer. */
  lemma ReajusteLongitud(ps: seq<Paso>, nivel: string, tipo: string)
    ensures |Reajuste(ps, nivel, tipo)| == Cabezas(ps) + 2 * Objetivo(nivel) - 1
  {
    RellenarCompleto(Filtrar(ps, EsEjercicio), nivel, tipo);
  }

  /** The warm-up kept, if any, comes first, and it is the first warm-up of the routine. */
  lemma ReajusteCabeza(ps: seq<Paso>, nivel: string, tipo: string)
    requires Cabezas(ps) == 1
    ensures Reajuste(ps, nivel, tipo)[0] == Filtrar(ps, EsCalentamiento)[0]
    ensures EsCalentamiento(Reajuste(ps, nivel, tipo)[0])
  {
  }

  /** After the warm-up kept, every odd offset holds a copy of the rest template. */
  lemma ReajusteDescansos(ps: seq<Paso>, nivel: string, tipo: string)
    ensures forall k :: 0 <= k < Objetivo(nivel) - 1 ==>
              Reajuste(ps, nivel, tipo)[Cabezas(ps) + 2 * k + 1] == Plantilla(Filtrar(ps, EsDescanso))
  {
    RellenarCompleto(Filtrar(ps, EsEjercicio), nivel, tipo);
    IntercalarTrasImpares(Cabeza(Filtrar(ps, EsCalentamiento)), Ejercicios(ps, nivel, tipo),
                          Plantilla(Filtrar(ps, EsDescanso)), Reajuste(ps, nivel, tipo));
  }

  /** After the warm-up kept, the even offsets hold the exercises in order. */
  lemma ReajusteEnPares(ps: seq<Paso>, nivel: string, tipo: string)
    ensures forall k :: 0 <= k < |Ejercicios(ps, nivel, tipo)| ==>
              Reajuste(ps, nivel, tipo)[Cabezas(ps) + 2 * k] == Ejercicios(ps, nivel, tipo)[k]
  {
    IntercalarTrasPares(Cabeza(Filtrar(ps, EsCalentamiento)), Ejercicios(ps, nivel, tipo),
                        Plantilla(Filtrar(ps, EsDescanso)), Reajuste(ps, nivel, tipo));
  }

  /** The routine's own exercises come first, in order and scaled, as many as the target allows. */
  lemma EjerciciosPropios(ps: seq<Paso>, nivel: string, tipo: string)
    ensures forall k :: 0 <= k < |Ejercicios(ps, nivel, tipo)| && k < |Filtrar(ps, EsEjercicio)| ==>
              Ejercicios(ps, nivel, tipo)[k] == NormalizarSegundosEjercicio(Filtrar(ps, EsEjercicio)[k], nivel)
  {
  }

  /** Past the routine's own exercises, the padded list holds pool copies taken cyclically, scaled. */
  lemma RellenoNormalizado(exs: seq<Paso>, obj: nat, pool: seq<Paso>, nivel: string)
    requires |pool| > 0
    ensures forall k :: |exs| <= k < |Rellenar(exs, obj, pool)| ==>
              Normalizados(Rellenar(exs, obj, pool), nivel)[k] ==
              NormalizarSegundosEjercicio(pool[(k - |exs|) % |pool|], nivel)
  {
  }

  /** Then come scaled pool copies, taken cyclically from the start of the four-entry pool. */
  lemma EjerciciosDelPool(ps: seq<Paso>, nivel: string, tipo: string)
    ensures forall k :: |Filtrar(ps, EsEjercicio)| <= k < |Ejercicios(ps, nivel, tipo)| ==>
              Ejercicios(ps, nivel, tipo)[k] ==
              NormalizarSegundosEjercicio(Pool(tipo)[(k - |Filtrar(ps, EsEjercicio)|) % |Pool(tipo)|], nivel)
  {
    RellenoNormalizado(Filtrar(ps, EsEjercicio), Objetivo(nivel), Pool(tipo), nivel);
  }

  /** After the warm-up kept, the target number of exercise steps sit at the even offsets. */
  lemma ReajusteClasePares(ps: seq<Paso>, nivel: string, tipo: string)
    ensures forall k :: 0 <= k < Objetivo(nivel) ==> EsEjercicio(Reajuste(ps, nivel, tipo)[Cabezas(ps) + 2 * k])
  {
    RellenadosSonEjercicios(ps, nivel, tipo);
    ReajusteEnPares(ps, nivel, tipo);
    ClaseEnPares(Reajuste(ps, nivel, tipo), Cabezas(ps), Ejercicios(ps, nivel, tipo), EsEjercicio);
  }

  /**
   * The ends of a reshaped routine: a warm-up first if the routine had one, otherwise an exercise;
   * the last step is an exercise, so never a rest; the rest template is a rest.
   */
  lemma ReajusteExtremos(ps: seq<Paso>, nivel: string, tipo: string)
    ensures EsDescanso(Plantilla(Filtrar(ps, EsDescanso)))
    ensures Cabezas(ps) == 1 ==> EsCalentamiento(Reajuste(ps, nivel, tipo)[0])
    ensures Cabezas(ps) == 0 ==> EsEjercicio(Reajuste(ps, nivel, tipo)[0])
    ensures var r := Reajuste(ps, nivel, tipo); EsEjercicio(r[|r| - 1]) && !EsDescanso(r[|r| - 1])
  {
    ReajusteClasePares(ps, nivel, tipo);
    ReajusteLongitud(ps, nivel, tipo);
    var n := Objetivo(nivel);
    assert Cabezas(ps) + 2 * (n - 1) == |Reajuste(ps, nivel, tipo)| - 1;
    assert Cabezas(ps) + 2 * 0 == Cabezas(ps);
  }

  /** The first warm-up kept in front is the earliest warm-up of the original routine. */
  lemma ReajusteCalentamiento(ps: seq<Paso>, nivel: string, tipo: string)
    requires Filtrar(ps, EsCalentamiento) != []
    ensures exists i :: 0 <= i < |ps| && Reajuste(ps, nivel, tipo)[0] == ps[i] && EsCalentamiento(ps[i]) &&
                        forall j :: 0 <= j < i ==> !EsCalentamiento(ps[j])
  {
    FiltrarPrimero(ps, EsCalentamiento);
  }

  /** The retuning of one step by BMI category (already upper-cased): rests only. */
  function AjustarDescanso(p: Paso, cat: string): (q: Paso)
    ensures q.title == p.title && q.decir == p.decir
    ensures !EsDescanso(p) ==> q == p
    ensures EsDescanso(p) && (cat == "SOBREPESO" || cat == "OBESIDAD") ==>
              q.segundos >= 30 && q.segundos >= p.segundos + 15 && (q.segundos == 30 || q.segundos == p.segundos + 15)
    ensures EsDescanso(p) && cat == "NORMAL" ==>
              q.segundos >= 10 && q.segundos >= p.segundos - 5 && (q.segundos == 10 || q.segundos == p.segundos - 5)
    ensures cat !in {"SOBREPESO", "OBESIDAD", "NORMAL"} ==> q == p
  {
    if !EsDescanso(p) then p
    else if cat == "SOBREPESO" || cat == "OBESIDAD" then p.(segundos := Max(30, p.segundos + 15))
    else if cat == "NORMAL" then p.(segundos := Max(10, p.segundos - 5))
    else p
  }

  /**
   * `ajustar_descansos_por_imc`: every rest step of the routine is retuned for the category (read in
   * any letter case); the other steps, their order and the title stay as they were.
   */
  method AjustarDescansosPorImc(rutina: Rutina, categoria: string)
    modifies rutina
    ensures rutina.titulo == old(rutina.titulo)
    ensures |rutina.pasos| == |old(rutina.pasos)|
    ensures forall i :: 0 <= i < |rutina.pasos| ==>
              rutina.pasos[i] == AjustarDescanso(old(rutina.pasos)[i], Mayusculas(categoria))
  {
    var cat := Mayusculas(categoria);
    var i := 0;
    while i < |rutina.pasos|
      invariant 0 <= i <= |rutina.pasos| == |old(rutina.pasos)|
      invariant rutina.titulo == old(rutina.titulo)
      invariant forall k :: 0 <= k < i ==> rutina.pasos[k] == AjustarDescanso(old(rutina.pasos)[k], cat)
      invariant forall k :: i <= k < |rutina.pasos| ==> rutina.pasos[k] == old(rutina.pasos)[k]
    {
      rutina.pasos := rutina.pasos[i := AjustarDescanso(rutina.pasos[i], cat)];
      i := i + 1;
    }
  }

  /** Retuning keeps every step's classification, hence the whole layout of the routine. */
  lemma AjustarDescansoConservaClase(p: Paso, cat: string)
    ensures EsDescanso(AjustarDescanso(p, cat)) == EsDescanso(p)
    ensures EsEjercicio(AjustarDescanso(p, cat)) == EsEjercicio(p)
    ensures EsCalentamiento(AjustarDescanso(p, cat)) == EsCalentamiento(p)
  {
  }

  /** The fallback warm-up: "Calentamiento", 60 seconds. */
  const CalentamientoFallback: Paso := Paso("Calentamiento", 60, "Movilidad articular suave.")

  /** The steps of `rutina_fallback`: the warm-up, then the target number of scaled pool exercises with the default rest between them. */
  function PasosFallback(tipo: string, nivel: string): seq<Paso> {
    [CalentamientoFallback] + Intercalar(Normalizados(Ciclo(Pool(tipo), Objetivo(nivel)), nivel), DescansoPorDefecto)
  }

  /** `rutina_fallback`: a new routine titled "Rutina <Tipo> - <Nivel>". */
  method RutinaFallback(tipo: string, nivel: string) returns (r: Rutina)
    ensures fresh(r)
    ensures r.titulo == Some(TituloAjustado(tipo, nivel))
    ensures r.pasos == PasosFallback(tipo, nivel)
  {
    var objetivo := Objetivo(nivel);
    var base := [CalentamientoFallback];
    var pool := Pool(tipo);
    var exs := Ciclo(pool, objetivo);
    var rest := DescansoPorDefecto;
    var pasos := IntercalarTras(base, Normalizados(exs, nivel), rest);
    r := new Rutina(Some(TituloAjustado(tipo, nivel)), pasos);
  }

  /**
   * The fallback has `2n` steps for the level's target `n`: the warm-up, then pool exercise `k mod 4`
   * (scaled) at position `2k + 1` and the 20-second default rest at position `2k + 2`.
   */
  lemma FallbackForma(tipo: string, nivel: string)
    ensures var r := PasosFallback(tipo, nivel);
            var n := Objetivo(nivel);
            |r| == 2 * n && r[0] == CalentamientoFallback &&
            (forall k :: 0 <= k < n ==> r[2 * k + 1] == NormalizarSegundosEjercicio(Pool(tipo)[k % 4], nivel)) &&
            (forall k :: 0 <= k < n ==> EsEjercicio(r[2 * k + 1])) &&
            (forall k :: 0 <= k < n - 1 ==> r[2 * k + 2] == DescansoPorDefecto)
  {
    var n := Objetivo(nivel);
    var norm := Normalizados(Ciclo(Pool(tipo), n), nivel);
    IntercalarPosiciones(norm, DescansoPorDefecto);
    forall k | 0 <= k < n ensures EsEjercicio(norm[k]) {
      NormalizarConservaClase(Pool(tipo)[k % 4], nivel);
    }
  }
}
