/** app.py: the normalisers that turn the spoken slot values into the pipeline's tokens. */
module Normalizacion {
  import opened Wrappers
  import opened Cadenas
  import opened Imc

  /** The trimmed, lower-cased slot value (an absent slot is the empty string). */
  function Limpio(s: string): string {
    Minusculas(Strip(s))
  }

  /** `norm_modo`: "random" for the four synonyms of random, "manual" for anything else. */
  function NormModo(s: string): (r: string)
    ensures r in {"random", "manual"}
    ensures r == "random" <==> Limpio(s) in {"aleatorio", "al azar", "random", "sorpresa"}
  {
    if Limpio(s) in {"aleatorio", "al azar", "random", "sorpresa"} then "random" else "manual"
  }

  /** `norm_tipo`: "UPPER" or "LOWER" for their synonyms, "" (ask again) for anything else. */
  function NormTipo(s: string): (r: string)
    ensures r in {"UPPER", "LOWER", ""}
    ensures r == "UPPER" <==>
            Limpio(s) in {"upper", "uper", "up", "tren superior", "arriba", "superior", "pecho", "pecho y espalda", "brazos"}
    ensures r == "LOWER" <==>
            Limpio(s) in {"lower", "louer", "low", "tren inferior", "abajo", "inferior", "piernas", "gluteos", "glúteos"}
  {
    var t := Limpio(s);
    if t in {"upper", "uper", "up", "tren superior", "arriba", "superior", "pecho", "pecho y espalda", "brazos"} then "UPPER"
    else if t in {"lower", "louer", "low", "tren inferior", "abajo", "inferior", "piernas", "gluteos", "glúteos"} then "LOWER"
    else ""
  }

  /** `norm_nivel`: "FACIL", "MEDIO" or "DIFICIL" for their synonyms, "" (ask again) for anything else. */
  function NormNivel(s: string): (r: string)
    ensures r in {"FACIL", "MEDIO", "DIFICIL", ""}
    ensures r == "FACIL" <==> Limpio(s) in {"facil", "fácil", "basico", "básico", "principiante"}
    ensures r == "MEDIO" <==> Limpio(s) in {"medio", "intermedio"}
    ensures r == "DIFICIL" <==> Limpio(s) in {"dificil", "difícil", "avanzado", "intenso"}
  {
    var t := Limpio(s);
    if t in {"facil", "fácil", "basico", "básico", "principiante"} then "FACIL"
    else if t in {"medio", "intermedio"} then "MEDIO"
    else if t in {"dificil", "difícil", "avanzado", "intenso"} then "DIFICIL"
    else ""
  }

  /** A string without surrounding whitespace is its own strip. */
  lemma StripBorde(s: string)
    requires s != [] && !EsEspacio(s[0]) && !EsEspacio(s[|s| - 1])
    ensures Strip(s) == s
  {
    assert QuitarIzquierda(s) == s;
  }

  /** A string without surrounding whitespace is cleaned by lower-casing alone. */
  lemma LimpioEs(s: string, r: string)
    requires s != [] && !EsEspacio(s[0]) && !EsEspacio(s[|s| - 1])
    requires Minusculas(s) == r
    ensures Limpio(s) == r
  {
    StripBorde(s);
  }

  /** The two modes are fixed points of `norm_modo`. */
  lemma NormModoFijo(t: string)
    requires t == "random" || t == "manual"
    ensures NormModo(t) == t
  {
    LimpioEs(t, t);
  }

  /** Normalising a normalised mode changes nothing. */
  lemma NormModoIdempotente(s: string)
    ensures NormModo(NormModo(s)) == NormModo(s)
  {
    NormModoFijo(NormModo(s));
  }

  /** The three type tokens are fixed points of `norm_tipo`. */
  lemma NormTipoFijo(t: string)
    requires t == "UPPER" || t == "LOWER" || t == ""
    ensures NormTipo(t) == t
  {
    if t == "UPPER" {
      LimpioEs(t, "upper");
    } else if t == "LOWER" {
      LimpioEs(t, "lower");
      var l := Limpio(t);
      assert l != "upper" && l != "uper" && l != "up" && l != "tren superior" && l != "arriba";
      assert l != "superior" && l != "pecho" && l != "pecho y espalda" && l != "brazos";
    } else {
      LimpioVacio(t);
    }
  }

  /** Normalising a normalised type changes nothing. */
  lemma NormTipoIdempotente(s: string)
    ensures NormTipo(NormTipo(s)) == NormTipo(s)
  {
    NormTipoFijo(NormTipo(s));
  }

  /** Each level word is a fixed point: it is already stripped, and its lower-case form is in its own list. */
  lemma PalabraNivelFija(t: string, bajo: string)
    requires (t == "FACIL" && bajo == "facil") || (t == "MEDIO" && bajo == "medio") ||
             (t == "DIFICIL" && bajo == "dificil")
    ensures NormNivel(t) == t
  {
    LimpioEs(t, bajo);
  }

  lemma StripVacio(t: string)
    requires t == ""
    ensures Strip(t) == ""
  {
  }

  lemma LimpioVacio(t: string)
    requires t == ""
    ensures Limpio(t) == ""
  {
    StripVacio(t);
  }

  lemma NivelDeVacio(t: string)
    requires Limpio(t) == ""
    ensures NormNivel(t) == ""
  {
  }

  lemma NivelVacioFijo(t: string)
    requires t == ""
    ensures NormNivel(t) == t
  {
    LimpioVacio(t);
    NivelDeVacio(t);
  }

  /** The four level tokens are fixed points of `norm_nivel`. */
  lemma NormNivelFijo(t: string)
    requires t == "FACIL" || t == "MEDIO" || t == "DIFICIL" || t == ""
    ensures NormNivel(t) == t
  {
    if t == "FACIL" {
      PalabraNivelFija(t, "facil");
    } else if t == "MEDIO" {
      PalabraNivelFija(t, "medio");
    } else if t == "DIFICIL" {
      PalabraNivelFija(t, "dificil");
    } else {
      NivelVacioFijo(t);
    }
  }

  /** Normalising a normalised level changes nothing. */
  lemma NormNivelIdempotente(s: string)
    ensures NormNivel(NormNivel(s)) == NormNivel(s)
  {
    NormNivelFijo(NormNivel(s));
  }

  /** Spoken forms in any letter case and with surrounding spaces. */
  lemma NormEjemplos(nivel: string, tipo: string, modo: string)
    requires nivel == " Fácil" && tipo == "PIERNAS" && modo == "Sorpresa"
    ensures NormNivel(nivel) == "FACIL"
    ensures NormTipo(tipo) == "LOWER"
    ensures NormModo(modo) == "random"
  {
    LimpioEspacioInicial(nivel, "fácil");
    LimpioEs(tipo, "piernas");
    LimpioEs(modo, "sorpresa");
  }

  /** One leading space is dropped before lower-casing. */
  lemma LimpioEspacioInicial(s: string, r: string)
    requires |s| >= 2 && s[0] == ' ' && !EsEspacio(s[1]) && !EsEspacio(s[|s| - 1])
    requires Minusculas(s[1..]) == r
    ensures Limpio(s) == r
  {
    assert QuitarIzquierda(s) == QuitarIzquierda(s[1..]) == s[1..];
    StripBorde(s[1..]);
  }

  /**
   * `parse_estatura_cm` on a slot already read as a number (None when absent or not numeric): a value
   * below 3 is taken as metres and converted, anything else as centimetres, rounded to an integer.
   */
  function ParseEstaturaCm(v: Option<real>): (r: Option<int>)
    ensures r.Some? <==> v.Some?
    ensures v.Some? && v.value < 3.0 ==> v.value * 100.0 - 0.5 <= r.value as real <= v.value * 100.0 + 0.5
    ensures v.Some? && v.value >= 3.0 ==> v.value - 0.5 <= r.value as real <= v.value + 0.5
  {
    match v
    case None => None
    case Some(f) => if f < 3.0 then Some(RedondearEntero(f * 100.0)) else Some(RedondearEntero(f))
  }

  /** A height said in metres and the same height said in centimetres give the same result. */
  lemma MetrosOCentimetros(f: real)
    requires 0.03 <= f < 3.0
    ensures ParseEstaturaCm(Some(f)) == ParseEstaturaCm(Some(f * 100.0))
  {
  }

  lemma ParseEstaturaEjemplos()
    ensures ParseEstaturaCm(Some(1.72)) == Some(172)
    ensures ParseEstaturaCm(Some(172.0)) == Some(172)
    ensures ParseEstaturaCm(Some(172.4)) == Some(172)
    ensures ParseEstaturaCm(Some(0.5)) == Some(50)
  {
    assert RedondearEntero(172.0) == 172;
    assert RedondearEntero(172.4) == 172;
    assert RedondearEntero(50.0) == 50;
  }

  /** `parse_estatura_cm(...) or 170`: a missing or zero height becomes 170 cm. */
  function EstaturaEfectiva(v: Option<real>): (cm: int)
    ensures ParseEstaturaCm(v) == None ==> cm == 170
    ensures ParseEstaturaCm(v).Some? && ParseEstaturaCm(v).value != 0 ==> cm == ParseEstaturaCm(v).value
    ensures cm != 0
  {
    match ParseEstaturaCm(v)
    case None => 170
    case Some(c) => if c == 0 then 170 else c
  }

  /** `_safe_float(peso_kg, 70.0)`: a weight that cannot be read becomes 70 kg. */
  function PesoEfectivo(v: Option<real>): (kg: real)
    ensures v.None? ==> kg == 70.0
    ensures v.Some? ==> kg == v.value
  {
    v.GetOr(70.0)
  }
}
