/** app.py: `resumen_y_texto`, the spoken text of a routine. */
module Texto {
  import opened Wrappers
  import opened Cadenas
  import opened Modelo

  /** The most steps read out. */
  const MaxPasos: nat := 12

  /** The heading read first: the title, or "Rutina generada." when there is none or it is empty. */
  function Resumen(titulo: Option<string>): (r: string)
    ensures titulo.Some? && titulo.value != "" ==> r == titulo.value
    ensures titulo.None? || titulo.value == "" ==> r == "Rutina generada."
  {
    match titulo
    case Some(t) => if t != "" then t else "Rutina generada."
    case None => "Rutina generada."
  }

  /** The seconds clause: ", <s> segundos." for a non-zero duration, "." for zero. */
  function Duracion(s: int): string {
    if s != 0 then ", " + EnteroATexto(s) + " segundos." else "."
  }

  /** The cue clause: a space and the cue when the stripped cue is not empty, nothing otherwise. */
  function Indicacion(decir: string): string {
    var d := Strip(decir);
    if d != "" then " " + d else ""
  }

  /** What follows the step number: ": <stripped title>" and the two clauses. */
  function Cuerpo(p: Paso): string {
    ": " + Strip(p.title) + Duracion(p.segundos) + Indicacion(p.decir)
  }

  /** The line for step number `i`: "Paso <i>" and the body. */
  function Linea(i: nat, p: Paso): string {
    "Paso " + NatATexto(i) + Cuerpo(p)
  }

  /** `f(i, xs[i - 1])` for each element, numbering from 1 (Python's `enumerate(xs, 1)`). */
  function Numerar<T, U>(xs: seq<T>, f: (nat, T) -> U): (r: seq<U>)
    ensures |r| == |xs|
    ensures forall k :: 0 <= k < |xs| ==> r[k] == f(k + 1, xs[k])
  {
    seq(|xs|, i requires 0 <= i < |xs| => f(i + 1, xs[i]))
  }

  /** Numbering one more element appends its image to the numbering of the prefix. */
  lemma NumerarExtender<T, U>(xs: seq<T>, f: (nat, T) -> U, i: nat)
    requires i < |xs|
    ensures Numerar(xs[..i + 1], f) == Numerar(xs[..i], f) + [f(i + 1, xs[i])]
  {
    var a, b := Numerar(xs[..i + 1], f), Numerar(xs[..i], f) + [f(i + 1, xs[i])];
    forall k | 0 <= k < |a| ensures a[k] == b[k] {
      if k < i {
        assert xs[..i + 1][k] == xs[..i][k];
      }
    }
  }

  /** The lines of the steps read out, numbered from 1. */
  function Lineas(ps: seq<Paso>): (r: seq<string>)
    ensures |r| == |ps|
  {
    Numerar(ps, Linea)
  }

  /** The pieces joined into the text: the stripped heading, then one line for each of the first 12 steps. */
  function Partes(titulo: Option<string>, ps: seq<Paso>): seq<string> {
    [Strip(Resumen(titulo))] + Lineas(ps[..Min(|ps|, MaxPasos)])
  }

  /**
   * `resumen_y_texto`: the heading, then a line per step until the twelfth, joined by single spaces.
   */
  method ResumenYTexto(rutina: Rutina) returns (texto: string)
    ensures texto == Unir(" ", Partes(rutina.titulo, rutina.pasos))
  {
    var pasos := rutina.pasos;
    var cab := Strip(Resumen(rutina.titulo));
    var lineas: seq<string> := [];
    var i := 0;
    while i < |pasos|
      invariant 0 <= i <= |pasos| && i < MaxPasos
      invariant lineas == Numerar(pasos[..i], Linea)
    {
      NumerarExtender(pasos, Linea, i);
      lineas := lineas + [Linea(i + 1, pasos[i])];
      i := i + 1;
      if i >= MaxPasos {
        break;
      }
    }
    assert i == Min(|pasos|, MaxPasos);
    PartesDe(rutina.titulo, pasos, lineas);
    texto := Unir(" ", [cab] + lineas);
  }

  /** The pieces are the heading and the numbered lines of the first steps. */
  lemma PartesDe(titulo: Option<string>, ps: seq<Paso>, lineas: seq<string>)
    requires lineas == Numerar(ps[..Min(|ps|, MaxPasos)], Linea)
    ensures Partes(titulo, ps) == [Strip(Resumen(titulo))] + lineas
  {
  }

  /** There is one piece for the heading and one per step read, at most 12. */
  lemma PartesLongitud(titulo: Option<string>, ps: seq<Paso>)
    ensures |Partes(titulo, ps)| == 1 + Min(|ps|, MaxPasos)
    ensures Partes(titulo, ps)[0] == Strip(Resumen(titulo))
  {
  }

  /** Piece `k` after the heading is the line of step `k`, numbered from 1. */
  lemma PartesLineas(titulo: Option<string>, ps: seq<Paso>)
    ensures forall k :: 1 <= k < |Partes(titulo, ps)| ==> Partes(titulo, ps)[k] == Linea(k, ps[k - 1])
  {
    var n := Min(|ps|, MaxPasos);
    forall k | 1 <= k < |Partes(titulo, ps)| ensures Partes(titulo, ps)[k] == Linea(k, ps[k - 1]) {
      assert Partes(titulo, ps)[k] == Lineas(ps[..n])[k - 1];
      assert ps[..n][k - 1] == ps[k - 1];
    }
  }

  /** The length of a join: the pieces' lengths plus one separator's length between each two. */
  lemma {:induction false} UnirLongitud(sep: string, xs: seq<string>)
    requires |xs| >= 1
    ensures |Unir(sep, xs)| == SumaLongitudes(xs) + (|xs| - 1) * |sep|
    decreases |xs|
  {
    if |xs| > 1 {
      UnirLongitud(sep, xs[1..]);
      assert SumaLongitudes(xs) == |xs[0]| + SumaLongitudes(xs[1..]);
    }
  }

  function SumaLongitudes(xs: seq<string>): nat
    decreases |xs|
  {
    if xs == [] then 0 else |xs[0]| + SumaLongitudes(xs[1..])
  }

  /** The spoken text starts with the stripped heading. */
  lemma TextoEmpiezaConResumen(titulo: Option<string>, ps: seq<Paso>)
    ensures var t := Unir(" ", Partes(titulo, ps));
            var r := Strip(Resumen(titulo));
            |t| >= |r| && t[..|r|] == r
  {
    UnirEmpieza(" ", Partes(titulo, ps));
  }

  /** Reading the digits after "Paso " gives back the step number. */
  lemma LineaNumerada(i: nat, p: Paso)
    ensures var l := Linea(i, p);
            l[..5] == "Paso " && ValorDigitos(PrefijoDigitos(l[5..])) == i
  {
    Tras("Paso ", NatATexto(i), Cuerpo(p));
    PrefijoDigitosDe(NatATexto(i), Cuerpo(p));
    ValorNatATexto(i);
  }

  /** Dropping the first part of a concatenation of three leaves the other two. */
  lemma Tras<T>(a: seq<T>, b: seq<T>, c: seq<T>)
    ensures (a + b + c)[|a|..] == b + c
  {
  }

  /** A zero duration says no seconds; a non-zero one says them between ", " and " segundos.". */
  lemma DuracionForma(s: int)
    ensures s == 0 ==> Duracion(s) == "."
    ensures s != 0 ==> |Duracion(s)| > 11 && Duracion(s)[..2] == ", " &&
                       Duracion(s)[|Duracion(s)| - 10..] == " segundos."
  {
  }

  /** An empty or blank cue adds nothing; otherwise the line ends with a space and the stripped cue. */
  lemma IndicacionForma(decir: string)
    ensures Strip(decir) == "" ==> Indicacion(decir) == ""
    ensures Strip(decir) != "" ==> Indicacion(decir)[0] == ' ' && Indicacion(decir)[1..] == Strip(decir)
  {
  }
}
