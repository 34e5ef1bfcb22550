/** rutina_servicio.py: the facade that builds a routine for a person, and its duration summary. */
module RutinaServicio {
  import opened Wrappers
  import opened Cadenas
  import opened Modelo
  import opened Imc
  import opened SelectorSets
  import opened ModosRutina
  import opened RutinaCreador

  /** The facade's own rest table: FACIL 15, INTERMEDIO 20, DIFICIL 25 (any case), 15 otherwise, plus 5 when overweight. */
  function DescansoFacade(nivel: string, sobrepeso: bool): (r: int)
    ensures r in {15, 20, 25, 30}
    ensures sobrepeso ==> r >= 20
  {
    var n := Mayusculas(nivel);
    var base := if n == "FACIL" then 15 else if n == "INTERMEDIO" then 20 else if n == "DIFICIL" then 25 else 15;
    if sobrepeso then base + 5 else base
  }

  /**
   * The facade's table and `segundos_descanso` agree except on the middle level: the facade knows
   * it as "INTERMEDIO" and rests "MEDIO" like an unknown level, `segundos_descanso` the other way round.
   */
  lemma DescansosComparados(nivel: string, sobrepeso: bool)
    ensures Mayusculas(nivel) != "MEDIO" && Mayusculas(nivel) != "INTERMEDIO" ==>
              DescansoFacade(nivel, sobrepeso) == SegundosDescanso(nivel, sobrepeso)
    ensures Mayusculas(nivel) == "MEDIO" ==> DescansoFacade(nivel, sobrepeso) == SegundosDescanso(nivel, sobrepeso) - 5
    ensures Mayusculas(nivel) == "INTERMEDIO" ==> DescansoFacade(nivel, sobrepeso) == SegundosDescanso(nivel, sobrepeso) + 5
  {
  }

  /** Whether the facade treats the person as overweight, from `calc_imc_cm` and `es_sobrepeso`. */
  predicate Sobre(peso: real, estaturaCm: real) {
    EsSobrepeso(CalcImcCm(peso, estaturaCm))
  }

  /** `RoutineFacade`: a template bank and an optional selection strategy, fixed at construction. */
  class RoutineFacade {
    const data: Banco
    const strategy: Option<Estrategia>

    constructor (data: Banco, strategy: Option<Estrategia>)
      ensures this.data == data && this.strategy == strategy
    {
      this.data := data;
      this.strategy := strategy;
    }

    /**
     * `generar_rutina`. Without a strategy it is `crear_rutina_desde_data`. With one, the strategy's
     * choice is framed by the warm-up and the cool-down and interleaved with the facade's rest.
     */
    method GenerarRutina(nivel: string, tipo: string, peso: real, estaturaCm: real) returns (r: Rutina)
      ensures fresh(r)
      ensures r.titulo == Some("Rutina " + tipo + " " + nivel)
      ensures strategy.None? ==> r.pasos == PasosCreados(data, nivel, tipo, Sobre(peso, estaturaCm))
      ensures strategy.Some? ==>
                exists s :: EsEleccion(strategy.value, data, nivel, tipo, Sobre(peso, estaturaCm), s) &&
                            r.pasos == Intercalar(data.warmup + s + data.cooldown,
                                                  Descanso(DescansoFacade(nivel, Sobre(peso, estaturaCm))))
    {
      var imc := CalcImcCm(peso, estaturaCm);
      var sobre := EsSobrepeso(imc);
      if strategy.None? {
        r := CrearRutinaDesdeData(data, nivel, tipo, sobre);
        return;
      }
      var setMain := Elegir(strategy.value, data, nivel, tipo, sobre);
      var descanso := DescansoFacade(nivel, sobre);
      var pasos := data.warmup + setMain + data.cooldown;
      var conDescanso := InsertarDescansos(pasos, descanso);
      r := new Rutina(Some("Rutina " + tipo + " " + nivel), conDescanso);
    }

    /** `duracion_estimada_seg`: the total of the steps' seconds. */
    function DuracionEstimadaSeg(rutina: Rutina): (total: int)
      reads rutina
      ensures rutina.pasos == [] ==> total == 0
      ensures (forall i :: 0 <= i < |rutina.pasos| ==> rutina.pasos[i].segundos >= 0) ==> total >= 0
    {
      SumaNoNegativa(rutina.pasos);
      Suma(rutina.pasos)
    }

    /** `formatear_resumen`: "<titulo> — Pasos: <n> — Duración aprox.: <m>m <s>s", "Rutina" standing in for a missing title. */
    function FormatearResumen(rutina: Rutina): (texto: string)
      reads rutina
      ensures rutina.titulo.Some? ==> |texto| > |rutina.titulo.value| && texto[..|rutina.titulo.value|] == rutina.titulo.value
      ensures exists m: int, s: nat ::
                m * 60 + s == DuracionEstimadaSeg(rutina) && s < 60 &&
                texto == rutina.titulo.GetOr("Rutina") + " — Pasos: " + NatATexto(|rutina.pasos|) +
                         " — Duración aprox.: " + EnteroATexto(m) + "m " + NatATexto(s) + "s"
    {
      var ms := MinutosSegundos(DuracionEstimadaSeg(rutina));
      rutina.titulo.GetOr("Rutina") + " — Pasos: " + NatATexto(|rutina.pasos|) + " — Duración aprox.: " +
        EnteroATexto(ms.0) + "m " + NatATexto(ms.1) + "s"
    }
  }

  /** Steps with non-negative seconds add up to a non-negative total. */
  lemma {:induction false} SumaNoNegativa(ps: seq<Paso>)
    ensures (forall i :: 0 <= i < |ps| ==> ps[i].segundos >= 0) ==> Suma(ps) >= 0
    decreases |ps|
  {
    if ps != [] {
      SumaNoNegativa(ps[..|ps| - 1]);
    }
  }

  /** Python's `divmod(total, 60)`: whole minutes (rounded down) and the remaining seconds. */
  function MinutosSegundos(total: int): (ms: (int, nat))
    ensures ms.0 * 60 + ms.1 == total
    ensures ms.1 < 60
  {
    (total / 60, total % 60)
  }

  /** The quotient and the remainder of `divmod` are the only such pair. */
  lemma MinutosSegundosUnicos(total: int, m: int, s: int)
    requires m * 60 + s == total && 0 <= s < 60
    ensures MinutosSegundos(total) == (m, s)
  {
  }

  /**
   * The duration of a facade routine: the chosen steps' seconds plus one rest fewer than there are
   * steps (no rest at all when there is nothing to do).
   */
  lemma DuracionRutina(xs: seq<Paso>, descansoS: int)
    ensures Suma(Intercalar(xs, Descanso(descansoS))) == if xs == [] then 0 else Suma(xs) + (|xs| - 1) * descansoS
  {
    if xs != [] {
      SumaIntercalar(xs, Descanso(descansoS));
    }
  }

  /** Taking one step out of a routine takes its seconds out of the total. */
  lemma SumaQuitar(b: seq<Paso>, j: nat)
    requires j < |b|
    ensures Suma(b) == Suma(b[..j] + b[j + 1..]) + b[j].segundos
  {
    var x := b[j];
    assert b == b[..j] + [x] + b[j + 1..];
    SumaConcat(b[..j], [x]);
    SumaConcat(b[..j] + [x], b[j + 1..]);
    SumaConcat(b[..j], b[j + 1..]);
    assert Suma([x]) == x.segundos by { assert [x][..0] == []; }
  }

  /** Taking one step out of a routine takes one copy of it out of the routine's multiset. */
  lemma QuitarMultiset(b: seq<Paso>, j: nat)
    requires j < |b|
    ensures multiset(b[..j] + b[j + 1..]) == multiset(b) - multiset{b[j]}
  {
    assert b == b[..j] + [b[j]] + b[j + 1..];
  }

  /** A routine's duration is the same whatever order the strategy put its set in. */
  lemma {:induction false} SumaPermutacion(a: seq<Paso>, b: seq<Paso>)
    requires multiset(a) == multiset(b)
    ensures Suma(a) == Suma(b)
    decreases |a|
  {
    if a != [] {
      var ini, x := a[..|a| - 1], a[|a| - 1];
      QuitarMultiset(a, |a| - 1);
      assert ini == a[..|a| - 1] + a[|a|..];
      assert x in b by { assert x in multiset(b); }
      var j :| 0 <= j < |b| && b[j] == x;
      QuitarMultiset(b, j);
      SumaPermutacion(ini, b[..j] + b[j + 1..]);
      SumaQuitar(b, j);
    }
  }
}
