/**
 * The part of Python's `str` the skill relies on, for ASCII text: `strip()`, `lower()`, `upper()`,
 * `title()`, the `in` substring test, `sep.join(...)` and `str(int)`.
 */
module Cadenas {

  /** Python's `str.isspace()` on ASCII: space, the controls 9..13 and the separators 28..31. */
  predicate EsEspacio(c: char) {
    c == ' ' || (9 <= c as int <= 13) || (28 <= c as int <= 31)
  }

  /** Removes leading whitespace. */
  function QuitarIzquierda(s: string): (r: string)
    ensures |r| <= |s| && r == s[|s| - |r|..]
    ensures r == [] || !EsEspacio(r[0])
    ensures forall k :: 0 <= k < |s| - |r| ==> EsEspacio(s[k])
    decreases |s|
  {
    if s != [] && EsEspacio(s[0]) then QuitarIzquierda(s[1..]) else s
  }

  /** Removes trailing whitespace. */
  function QuitarDerecha(s: string): (r: string)
    ensures |r| <= |s| && r == s[..|r|]
    ensures r == [] || !EsEspacio(r[|r| - 1])
    ensures forall k :: |r| <= k < |s| ==> EsEspacio(s[k])
    decreases |s|
  {
    if s != [] && EsEspacio(s[|s| - 1]) then QuitarDerecha(s[..|s| - 1]) else s
  }

  /** Python's `s.strip()`: the result neither starts nor ends with whitespace. */
  function Strip(s: string): (r: string)
    ensures |r| <= |s|
    ensures r == [] || (!EsEspacio(r[0]) && !EsEspacio(r[|r| - 1]))
  {
    QuitarDerecha(QuitarIzquierda(s))
  }

  /**
   * What `strip()` removes: the result is a slice of `s` between a run of leading whitespace and a
   * run of trailing whitespace.
   */
  lemma StripTramo(s: string)
    ensures var i := |s| - |QuitarIzquierda(s)|;
            var r := Strip(s);
            i + |r| <= |s| && r == s[i..i + |r|] &&
            (forall k :: 0 <= k < i ==> EsEspacio(s[k])) &&
            (forall k :: i + |r| <= k < |s| ==> EsEspacio(s[k]))
  {
    var l := QuitarIzquierda(s);
    PrefijoDeSufijo(s, l, QuitarDerecha(l));
  }

  /** A prefix `r` of a suffix `l` of `s` is a slice of `s`, and what follows `r` in `l` follows it in `s`. */
  lemma PrefijoDeSufijo(s: string, l: string, r: string)
    requires |l| <= |s| && l == s[|s| - |l|..]
    requires |r| <= |l| && r == l[..|r|]
    requires forall k :: |r| <= k < |l| ==> EsEspacio(l[k])
    ensures var i := |s| - |l|;
            r == s[i..i + |r|] && forall k :: i + |r| <= k < |s| ==> EsEspacio(s[k])
  {
    var i := |s| - |l|;
    forall k | i + |r| <= k < |s| ensures EsEspacio(s[k]) {
      assert s[k] == l[k - i];
    }
  }

  /** Stripping twice is stripping once. */
  lemma StripIdempotente(s: string)
    ensures Strip(Strip(s)) == Strip(s)
  {
    var r := Strip(s);
    assert QuitarIzquierda(r) == r;
    assert QuitarDerecha(r) == r;
  }

  function MinusculaChar(c: char): char {
    if 'A' <= c <= 'Z' then (c as int + 32) as char else c
  }

  function MayusculaChar(c: char): char {
    if 'a' <= c <= 'z' then (c as int - 32) as char else c
  }

  /** Python's `s.lower()` on ASCII letters; every other character is kept. */
  function Minusculas(s: string): (r: string)
    ensures |r| == |s|
  {
    seq(|s|, i requires 0 <= i < |s| => MinusculaChar(s[i]))
  }

  /** Python's `s.upper()` on ASCII letters; every other character is kept. */
  function Mayusculas(s: string): (r: string)
    ensures |r| == |s|
  {
    seq(|s|, i requires 0 <= i < |s| => MayusculaChar(s[i]))
  }

  predicate EsLetra(c: char) {
    'A' <= c <= 'Z' || 'a' <= c <= 'z'
  }

  /** Python's `s.title()` on ASCII: a letter is upper-cased after a non-letter and lower-cased after a letter. */
  function Titulo(s: string): (r: string)
    ensures |r| == |s|
  {
    seq(|s|, i requires 0 <= i < |s| =>
      if !EsLetra(s[i]) then s[i]
      else if i > 0 && EsLetra(s[i - 1]) then MinusculaChar(s[i])
      else MayusculaChar(s[i]))
  }

  /** `n[k..]` occurs in `h` at offset `i + k`. */
  predicate CoincideEn(h: string, n: string, i: nat, k: nat)
    decreases |n| - k
  {
    k >= |n| || (i + k < |h| && h[i + k] == n[k] && CoincideEn(h, n, i, k + 1))
  }

  predicate ContieneDesde(h: string, n: string, i: nat)
    decreases |h| - i
  {
    CoincideEn(h, n, i, 0) || (i < |h| && ContieneDesde(h, n, i + 1))
  }

  /** Python's `n in h` for strings: `n` occurs in `h` at some offset. */
  predicate Contiene(h: string, n: string) {
    exists i: nat :: i <= |h| && CoincideEn(h, n, i, 0)
  }

  /** The empty string is a substring of every string. */
  lemma ContieneVacio(h: string)
    ensures Contiene(h, "")
  {
    assert CoincideEn(h, "", 0, 0);
  }

  /** The offset-by-offset search from `i` finds an occurrence exactly when one starts at or after `i`. */
  lemma {:induction false} ContieneDesdeExiste(h: string, n: string, i: nat)
    requires i <= |h|
    ensures ContieneDesde(h, n, i) ==> exists j: nat :: i <= j <= |h| && CoincideEn(h, n, j, 0)
    ensures (exists j: nat :: i <= j <= |h| && CoincideEn(h, n, j, 0)) ==> ContieneDesde(h, n, i)
    decreases |h| - i
  {
    if i < |h| {
      ContieneDesdeExiste(h, n, i + 1);
    }
  }

  /** An unsuccessful search from offset 0 means no occurrence at all. */
  lemma NoContiene(h: string, n: string)
    requires !ContieneDesde(h, n, 0)
    ensures !Contiene(h, n)
  {
    ContieneDesdeExiste(h, n, 0);
  }

  lemma {:induction false} CoincideLetra(h: string, n: string, i: nat, k: nat, j: nat)
    requires CoincideEn(h, n, i, k) && k <= j < |n|
    ensures i + j < |h| && h[i + j] == n[j]
    decreases j - k
  {
    if k < j {
      CoincideLetra(h, n, i, k + 1, j);
    }
  }

  lemma {:induction false} SinLetraDesde(h: string, n: string, c: char, i: nat)
    requires c in n && c !in h
    ensures !ContieneDesde(h, n, i)
    decreases |h| - i
  {
    var j :| 0 <= j < |n| && n[j] == c;
    if CoincideEn(h, n, i, 0) {
      CoincideLetra(h, n, i, 0, j);
    }
    if i < |h| {
      SinLetraDesde(h, n, c, i + 1);
    }
  }

  /** A string containing a character that `h` lacks is not a substring of `h`. */
  lemma SinLetra(h: string, n: string, c: char)
    requires c in n && c !in h
    ensures !Contiene(h, n)
  {
    SinLetraDesde(h, n, c, 0);
    NoContiene(h, n);
  }

  /** No occurrence of a non-empty `n` starts at or after offset `i` once fewer than `|n|` characters remain. */
  lemma {:induction false} NoCabeDesde(h: string, n: string, i: nat)
    requires |n| > 0 && |h| < i + |n|
    ensures !ContieneDesde(h, n, i)
    decreases |h| - i
  {
    if CoincideEn(h, n, i, 0) {
      CoincideLetra(h, n, i, 0, |n| - 1);
    }
    if i < |h| {
      NoCabeDesde(h, n, i + 1);
    }
  }

  /** Python's `sep.join(xs)`. */
  function Unir(sep: string, xs: seq<string>): string
    decreases |xs|
  {
    if |xs| == 0 then ""
    else if |xs| == 1 then xs[0]
    else xs[0] + sep + Unir(sep, xs[1..])
  }

  /** The joined text starts with its first piece. */
  lemma {:induction false} UnirEmpieza(sep: string, xs: seq<string>)
    requires |xs| >= 1
    ensures |Unir(sep, xs)| >= |xs[0]| && Unir(sep, xs)[..|xs[0]|] == xs[0]
  {
  }

  /** Joining one more piece appends the separator and the piece. */
  lemma {:induction false} UnirAgregar(sep: string, xs: seq<string>, x: string)
    requires |xs| >= 1
    ensures Unir(sep, xs + [x]) == Unir(sep, xs) + sep + x
    decreases |xs|
  {
    if |xs| > 1 {
      assert (xs + [x])[1..] == xs[1..] + [x];
      UnirAgregar(sep, xs[1..], x);
    } else {
      assert (xs + [x])[1..] == [x];
    }
  }

  predicate EsDigito(c: char) {
    '0' <= c <= '9'
  }

  function Digito(d: nat): (c: char)
    requires d < 10
    ensures EsDigito(c) && c as int - '0' as int == d
  {
    ('0' as int + d) as char
  }

  /** Python's `str(n)` for a natural number: its decimal digits, most significant first. */
  function NatATexto(n: nat): (r: string)
    ensures |r| >= 1
    ensures forall i :: 0 <= i < |r| ==> EsDigito(r[i])
    decreases n
  {
    if n < 10 then [Digito(n)] else NatATexto(n / 10) + [Digito(n % 10)]
  }

  /** Python's `str(x)` for an integer (the f-string `{x}`). */
  function EnteroATexto(x: int): string {
    if x < 0 then "-" + NatATexto(-x) else NatATexto(x)
  }

  /** The number written by a string of decimal digits. */
  function ValorDigitos(s: string): nat
    requires forall i :: 0 <= i < |s| ==> EsDigito(s[i])
    decreases |s|
  {
    if s == [] then 0
    else
      assert EsDigito(s[|s| - 1]);
      ValorDigitos(s[..|s| - 1]) * 10 + (s[|s| - 1] as int - '0' as int)
  }

  /** Reading back the decimal text of `n` gives `n`. */
  lemma {:induction false} ValorNatATexto(n: nat)
    ensures ValorDigitos(NatATexto(n)) == n
    decreases n
  {
    if n >= 10 {
      ValorNatATexto(n / 10);
      var s := NatATexto(n);
      assert s[..|s| - 1] == NatATexto(n / 10);
    }
  }

  /** The longest prefix of `s` made of decimal digits. */
  function PrefijoDigitos(s: string): (r: string)
    ensures |r| <= |s| && r == s[..|r|]
    ensures forall i :: 0 <= i < |r| ==> EsDigito(r[i])
    decreases |s|
  {
    if s != [] && EsDigito(s[0]) then [s[0]] + PrefijoDigitos(s[1..]) else []
  }

  /** The digit prefix of `d + resto` is `d` when `resto` does not start with a digit. */
  lemma {:induction false} PrefijoDigitosDe(d: string, resto: string)
    requires forall i :: 0 <= i < |d| ==> EsDigito(d[i])
    requires resto == [] || !EsDigito(resto[0])
    ensures PrefijoDigitos(d + resto) == d
    decreases |d|
  {
    if d != [] {
      assert (d + resto)[1..] == d[1..] + resto;
      PrefijoDigitosDe(d[1..], resto);
    }
  }

  function Min(a: int, b: int): int {
    if a <= b then a else b
  }

  function Max(a: int, b: int): int {
    if a >= b then a else b
  }
}
