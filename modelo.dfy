/**
 * The records the routine pipeline works on: a step, the template bank, the routine dictionary,
 * the keyword classification of steps, and the sequence shapes shared by several operations.
 */
module Modelo {
  import opened Wrappers
  import opened Cadenas

  /** One instruction of a routine, the dictionary {"title", "segundos", "decir"}. */
  datatype Paso = Paso(title: string, segundos: int, decir: string)

  /** The template bank of routines.json: the "warmup", "cooldown" and "sets" entries (an absent entry is empty). */
  datatype Banco = Banco(warmup: seq<Paso>, cooldown: seq<Paso>, sets: map<string, seq<Paso>>)

  /**
   * A routine dictionary {"titulo", "pasos"}. The adjusters replace both entries in place;
   * `titulo == None` is a dictionary without a "titulo" key.
   */
  class Rutina {
    var titulo: Option<string>
    var pasos: seq<Paso>

    constructor (titulo: Option<string>, pasos: seq<Paso>)
      ensures this.titulo == titulo && this.pasos == pasos
    {
      this.titulo := titulo;
      this.pasos := pasos;
    }
  }

  /** `es_descanso`: the lower-cased title mentions "descanso", "pausa" or "rest". */
  predicate EsDescanso(p: Paso) {
    var t := Minusculas(p.title);
    Contiene(t, "descanso") || Contiene(t, "pausa") || Contiene(t, "rest")
  }

  /** `es_calentamiento`: the lower-cased title mentions "calent". */
  predicate EsCalentamiento(p: Paso) {
    Contiene(Minusculas(p.title), "calent")
  }

  /** An exercise is a step that is neither a rest nor a warm-up. */
  predicate EsEjercicio(p: Paso) {
    !EsDescanso(p) && !EsCalentamiento(p)
  }

  /** `xs` with one `sep` between each adjacent pair. */
  function Intercalar<T>(xs: seq<T>, sep: T): (r: seq<T>)
    ensures |r| == if xs == [] then 0 else 2 * |xs| - 1
    decreases |xs|
  {
    if |xs| <= 1 then xs else Intercalar(xs[..|xs| - 1], sep) + [sep, xs[|xs| - 1]]
  }

  /** The original elements sit at the even positions, in order, and `sep` at every odd one. */
  lemma {:induction false} IntercalarPosiciones<T>(xs: seq<T>, sep: T)
    ensures forall i :: 0 <= i < |xs| ==> Intercalar(xs, sep)[2 * i] == xs[i]
    ensures forall i :: 0 <= i < |xs| - 1 ==> Intercalar(xs, sep)[2 * i + 1] == sep
    decreases |xs|
  {
    if |xs| > 1 {
      var ini := xs[..|xs| - 1];
      IntercalarPosiciones(ini, sep);
      var r := Intercalar(xs, sep);
      assert r == Intercalar(ini, sep) + [sep, xs[|xs| - 1]];
      forall i | 0 <= i < |xs|
        ensures r[2 * i] == xs[i]
      {
        if i < |xs| - 1 {
          assert r[2 * i] == Intercalar(ini, sep)[2 * i] == ini[i];
        }
      }
      forall i | 0 <= i < |xs| - 1
        ensures r[2 * i + 1] == sep
      {
        if i < |xs| - 2 {
          assert r[2 * i + 1] == Intercalar(ini, sep)[2 * i + 1];
        }
      }
    }
  }

  /** A sequence with the length and the positions of `Intercalar(xs, sep)` is that sequence. */
  lemma IntercalarUnico<T>(xs: seq<T>, sep: T, ys: seq<T>)
    requires |ys| == if xs == [] then 0 else 2 * |xs| - 1
    requires forall i :: 0 <= i < |xs| ==> ys[2 * i] == xs[i]
    requires forall i :: 0 <= i < |xs| - 1 ==> ys[2 * i + 1] == sep
    ensures ys == Intercalar(xs, sep)
  {
    var r := Intercalar(xs, sep);
    IntercalarPosiciones(xs, sep);
    forall k | 0 <= k < |ys|
      ensures ys[k] == r[k]
    {
      var j := k / 2;
      if k == 2 * j {
        assert ys[2 * j] == r[2 * j];
      } else {
        assert k == 2 * j + 1;
        assert ys[2 * j + 1] == r[2 * j + 1];
      }
    }
  }

  /** Interleaving one more element extends the interleaving of the prefix. */
  lemma IntercalarExtender<T>(xs: seq<T>, sep: T, i: nat)
    requires i < |xs|
    ensures Intercalar(xs[..i + 1], sep) == if i == 0 then [xs[0]] else Intercalar(xs[..i], sep) + [sep, xs[i]]
  {
    assert xs[..i + 1][..i] == xs[..i];
  }

  /** Appends `xs` to `prefijo` one element at a time, with `sep` after every element but the last. */
  method IntercalarTras<T>(prefijo: seq<T>, xs: seq<T>, sep: T) returns (out: seq<T>)
    ensures out == prefijo + Intercalar(xs, sep)
  {
    out := prefijo;
    var i := 0;
    while i < |xs|
      invariant 0 <= i <= |xs|
      invariant out == prefijo + Intercalar(xs[..i], sep) + (if 0 < i < |xs| then [sep] else [])
    {
      IntercalarExtender(xs, sep, i);
      out := out + [xs[i]];
      if i + 1 < |xs| {
        out := out + [sep];
      }
      i := i + 1;
    }
    assert xs[..i] == xs;
  }

  /** Behind a prefix `cab`, the elements of `xs` sit at the even offsets after `cab`. */
  lemma IntercalarTrasPares<T>(cab: seq<T>, xs: seq<T>, sep: T, r: seq<T>)
    requires r == cab + Intercalar(xs, sep)
    ensures forall k :: 0 <= k < |xs| ==> r[|cab| + 2 * k] == xs[k]
  {
    IntercalarPosiciones(xs, sep);
  }

  /** Behind a prefix `cab`, `sep` sits at the odd offsets after `cab`. */
  lemma IntercalarTrasImpares<T>(cab: seq<T>, xs: seq<T>, sep: T, r: seq<T>)
    requires r == cab + Intercalar(xs, sep)
    ensures forall k :: 0 <= k < |xs| - 1 ==> r[|cab| + 2 * k + 1] == sep
  {
    IntercalarPosiciones(xs, sep);
  }

  /** When `xs` sits at the even offsets of `r` from `o`, a property of every element of `xs` holds at those offsets. */
  lemma ClaseEnPares<T>(r: seq<T>, o: nat, xs: seq<T>, f: T -> bool)
    requires o + 2 * |xs| <= |r| + 1
    requires forall k :: 0 <= k < |xs| ==> r[o + 2 * k] == xs[k]
    requires forall k :: 0 <= k < |xs| ==> f(xs[k])
    ensures forall k :: 0 <= k < |xs| ==> f(r[o + 2 * k])
  {
    forall k | 0 <= k < |xs| ensures f(r[o + 2 * k]) {
      assert r[o + 2 * k] == xs[k];
    }
  }

  /** The elements of `xs` that satisfy `f`, in their order (a Python list comprehension with a filter). */
  function Filtrar<T>(xs: seq<T>, f: T -> bool): (r: seq<T>)
    ensures |r| <= |xs|
    ensures forall i :: 0 <= i < |r| ==> f(r[i])
    decreases |xs|
  {
    if xs == [] then []
    else if f(xs[0]) then [xs[0]] + Filtrar(xs[1..], f)
    else Filtrar(xs[1..], f)
  }

  /** Filtering keeps exactly the elements satisfying `f`: nothing is invented and nothing satisfying `f` is lost. */
  lemma {:induction false} FiltrarContenido<T>(xs: seq<T>, f: T -> bool)
    ensures forall x :: x in Filtrar(xs, f) <==> x in xs && f(x)
    decreases |xs|
  {
    if xs != [] {
      FiltrarContenido(xs[1..], f);
      assert forall x :: x in xs <==> x == xs[0] || x in xs[1..];
    }
  }

  /** When some element satisfies `f`, the first kept element is the first such element of `xs`. */
  lemma {:induction false} FiltrarPrimero<T>(xs: seq<T>, f: T -> bool)
    requires Filtrar(xs, f) != []
    ensures exists i :: 0 <= i < |xs| && xs[i] == Filtrar(xs, f)[0] && f(xs[i]) &&
                        forall j :: 0 <= j < i ==> !f(xs[j])
    decreases |xs|
  {
    if !f(xs[0]) {
      FiltrarPrimero(xs[1..], f);
      var i :| 0 <= i < |xs[1..]| && xs[1..][i] == Filtrar(xs[1..], f)[0] && f(xs[1..][i]) &&
               forall j :: 0 <= j < i ==> !f(xs[1..][j]);
      assert xs[i + 1] == Filtrar(xs, f)[0];
      assert forall j :: 0 <= j < i + 1 ==> !f(xs[j]) by {
        forall j | 0 <= j < i + 1 ensures !f(xs[j]) {
          if j > 0 { assert xs[j] == xs[1..][j - 1]; }
        }
      }
    } else {
      assert xs[0] == Filtrar(xs, f)[0];
    }
  }

  /** The total of the `segundos` of the steps. */
  function Suma(ps: seq<Paso>): int
    decreases |ps|
  {
    if ps == [] then 0 else Suma(ps[..|ps| - 1]) + ps[|ps| - 1].segundos
  }

  lemma {:induction false} SumaConcat(a: seq<Paso>, b: seq<Paso>)
    ensures Suma(a + b) == Suma(a) + Suma(b)
    decreases |b|
  {
    if b != [] {
      assert (a + b)[..|a + b| - 1] == a + b[..|b| - 1];
      SumaConcat(a, b[..|b| - 1]);
    } else {
      assert a + b == a;
    }
  }

  /** Interleaving `n` steps with a rest adds the rest's seconds `n - 1` times. */
  lemma {:induction false} SumaIntercalar(xs: seq<Paso>, sep: Paso)
    requires xs != []
    ensures Suma(Intercalar(xs, sep)) == Suma(xs) + (|xs| - 1) * sep.segundos
    decreases |xs|
  {
    if |xs| > 1 {
      var ini := xs[..|xs| - 1];
      SumaIntercalar(ini, sep);
      SumaConcat(Intercalar(ini, sep), [sep, xs[|xs| - 1]]);
      assert Suma([sep, xs[|xs| - 1]]) == sep.segundos + xs[|xs| - 1].segundos by {
        assert [sep, xs[|xs| - 1]][..1] == [sep];
        assert Suma([sep]) == sep.segundos by { assert [sep][..0] == []; }
      }
      assert Suma(xs) == Suma(ini) + xs[|xs| - 1].segundos;
    } else {
      assert Intercalar(xs, sep) == xs;
    }
  }
}
