/**
 * modos_rutina.py: the two set-selection strategies. The class hierarchy becomes a datatype whose
 * two variants carry the injected `elegir_set` function.
 */
module ModosRutina {
  import opened Wrappers
  import opened Cadenas
  import opened Modelo

  /** The signature of `elegir_set(data, nivel, tipo, sobrepeso)`. */
  type Selector = (Banco, string, string, bool) -> seq<Paso>

  /** `SimpleKeyStrategy` (manual mode) or `RandomizedStrategy` (random mode). */
  datatype Estrategia = SimpleKey(elegirSet: Selector) | Randomized(elegirSet: Selector)

  /** What `elegir` may return: a permutation of the selector's list, and exactly that list for SimpleKey. */
  ghost predicate EsEleccion(e: Estrategia, data: Banco, nivel: string, tipo: string, sobrepeso: bool, pasos: seq<Paso>) {
    var base := e.elegirSet(data, nivel, tipo, sobrepeso);
    multiset(pasos) == multiset(base) && (e.SimpleKey? ==> pasos == base)
  }

  /** `random.shuffle`: Fisher-Yates in place, the swap partner left open. */
  method Barajar<T>(a: array<T>)
    modifies a
    ensures multiset(a[..]) == old(multiset(a[..]))
  {
    var i := a.Length - 1;
    while i >= 1
      invariant i < a.Length
      invariant multiset(a[..]) == old(multiset(a[..]))
    {
      var j :| 0 <= j <= i;
      a[i], a[j] := a[j], a[i];
      i := i - 1;
    }
  }

  /** `elegir`: SimpleKey returns the selector's list; Randomized shuffles a copy of it. */
  method Elegir(e: Estrategia, data: Banco, nivel: string, tipo: string, sobrepeso: bool) returns (pasos: seq<Paso>)
    ensures |pasos| == |e.elegirSet(data, nivel, tipo, sobrepeso)|
    ensures multiset(pasos) == multiset(e.elegirSet(data, nivel, tipo, sobrepeso))
    ensures e.SimpleKey? ==> pasos == e.elegirSet(data, nivel, tipo, sobrepeso)
    ensures EsEleccion(e, data, nivel, tipo, sobrepeso, pasos)
  {
    match e
    case SimpleKey(f) =>
      pasos := f(data, nivel, tipo, sobrepeso);
    case Randomized(f) =>
      var base := f(data, nivel, tipo, sobrepeso);
      var copia := new Paso[|base|](i requires 0 <= i < |base| => base[i]);
      assert copia[..] == base;
      Barajar(copia);
      pasos := copia[..];
      assert |multiset(pasos)| == |multiset(base)|;
  }

  /** `crear_strategy`: SimpleKey exactly when the trimmed, lower-cased mode is "manual"; the seed is ignored. */
  function CrearStrategy(modo: string, elegirSet: Selector, seed: Option<int>): (e: Estrategia)
    ensures e.SimpleKey? <==> Minusculas(Strip(modo)) == "manual"
    ensures e.elegirSet == elegirSet
  {
    if Minusculas(Strip(modo)) == "manual" then SimpleKey(elegirSet) else Randomized(elegirSet)
  }

  /** The seed has no effect on the strategy. */
  lemma SemillaIgnorada(modo: string, elegirSet: Selector, s1: Option<int>, s2: Option<int>)
    ensures CrearStrategy(modo, elegirSet, s1) == CrearStrategy(modo, elegirSet, s2)
  {
  }

  lemma StripManual(m: string)
    requires m == " Manual "
    ensures Strip(m) == "Manual"
  {
    assert m[1..] == "Manual ";
    assert QuitarIzquierda(m) == "Manual ";
    var n := "Manual ";
    assert n[..|n| - 1] == "Manual";
  }

  lemma ModoManualConEspacios(m: string, elegirSet: Selector)
    requires m == " Manual "
    ensures CrearStrategy(m, elegirSet, None).SimpleKey?
  {
    StripManual(m);
    MinusculasManual(Strip(m));
  }

  lemma MinusculasManual(t: string)
    requires t == "Manual"
    ensures Minusculas(t) == "manual"
  {
  }

  lemma ModoVacio(m: string, elegirSet: Selector)
    requires m == ""
    ensures CrearStrategy(m, elegirSet, None).Randomized?
  {
    assert Strip(m) == "";
  }

  lemma ModoRandom(m: string, elegirSet: Selector)
    requires m == "random"
    ensures CrearStrategy(m, elegirSet, None).Randomized?
  {
    assert QuitarIzquierda(m) == m && QuitarDerecha(m) == m;
    assert Minusculas(m)[0] == 'r';
  }

  /** " Manual " selects SimpleKey; an absent or empty mode, and "random", select Randomized. */
  lemma ModosEjemplo(elegirSet: Selector)
    ensures CrearStrategy(" Manual ", elegirSet, None).SimpleKey?
    ensures CrearStrategy("", elegirSet, None).Randomized?
    ensures CrearStrategy("random", elegirSet, None).Randomized?
  {
    ModoManualConEspacios(" Manual ", elegirSet);
    ModoVacio("", elegirSet);
    ModoRandom("random", elegirSet);
  }
}
