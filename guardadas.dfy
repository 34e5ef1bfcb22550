/**
 * app.py: the saved-routine list as the view, delete and list handlers use it — the first entry
 * whose name matches a query, its removal, what is read out for it, and the spoken list of names.
 */
module Guardadas {
  import opened Wrappers
  import opened Cadenas

  /** The value under a key of a saved entry: missing, a string, or JSON null. */
  datatype Valor = Ausente | Cadena(s: string) | Nulo

  /**
   * One entry of the saved list: `Vacia` is an entry that reads as false (null or `{}`); otherwise a
   * dictionary with its "nombre" and "texto" values.
   */
  datatype Guardada = Vacia | Registro(nombre: Valor, texto: Valor)

  /**
   * `(r or {}).get("nombre", "")` when it is a string: an empty entry or a missing name reads as "",
   * and a null name is skipped (None).
   */
  function NombreLeido(r: Guardada): (n: Option<string>)
    ensures r.Vacia? || r.nombre.Ausente? ==> n == Some("")
    ensures r.Registro? && r.nombre.Cadena? ==> n == Some(r.nombre.s)
    ensures r.Registro? && r.nombre.Nulo? ==> n == None
  {
    match r
    case Vacia => Some("")
    case Registro(nombre, _) =>
      match nombre
      case Ausente => Some("")
      case Cadena(s) => Some(s)
      case Nulo => None
  }

  /** `consulta in nom.lower() or nom.lower() in consulta`, the query being already lower-cased. */
  predicate Coincide(r: Guardada, consulta: string) {
    var n := NombreLeido(r);
    n.Some? && (Contiene(Minusculas(n.value), consulta) || Contiene(consulta, Minusculas(n.value)))
  }

  /** An entry without a name (or an empty entry) matches every query. */
  lemma SinNombreCoincide(r: Guardada, consulta: string)
    requires r.Vacia? || r.nombre.Ausente? || r.nombre == Cadena("")
    ensures Coincide(r, consulta)
  {
    ContieneVacio(consulta);
  }

  /** A null name never matches. */
  lemma NuloNoCoincide(r: Guardada, consulta: string)
    requires r.Registro? && r.nombre.Nulo?
    ensures !Coincide(r, consulta)
  {
  }

  /**
   * The search loop of the view and delete handlers: the index of the first entry matching the
   * lower-cased query, or None when none does.
   */
  method Buscar(rutinas: seq<Guardada>, consulta: string) returns (idx: Option<nat>)
    ensures idx.Some? ==> idx.value < |rutinas| && Coincide(rutinas[idx.value], consulta)
    ensures idx.Some? ==> forall j :: 0 <= j < idx.value ==> !Coincide(rutinas[j], consulta)
    ensures idx.None? <==> forall j :: 0 <= j < |rutinas| ==> !Coincide(rutinas[j], consulta)
  {
    idx := None;
    var i := 0;
    while i < |rutinas|
      invariant 0 <= i <= |rutinas|
      invariant forall j :: 0 <= j < i ==> !Coincide(rutinas[j], consulta)
    {
      var n := NombreLeido(rutinas[i]);
      if n.Some? {
        var nomLow := Minusculas(n.value);
        if Contiene(nomLow, consulta) || Contiene(consulta, nomLow) {
          idx := Some(i);
          break;
        }
      }
      i := i + 1;
    }
  }

  /** The first index whose entry matches, as a specification. */
  function PrimeraCoincidencia(rutinas: seq<Guardada>, consulta: string): (r: Option<nat>)
    ensures r.Some? ==> r.value < |rutinas|
    decreases |rutinas|
  {
    if rutinas == [] then None
    else if Coincide(rutinas[0], consulta) then Some(0)
    else match PrimeraCoincidencia(rutinas[1..], consulta)
      case None => None
      case Some(k) => Some(k + 1)
  }

  /** The search loop finds exactly the first match the recursive definition names. */
  lemma {:induction false} PrimeraCoincidenciaEs(rutinas: seq<Guardada>, consulta: string, idx: Option<nat>)
    requires idx.Some? ==> idx.value < |rutinas| && Coincide(rutinas[idx.value], consulta)
    requires idx.Some? ==> forall j :: 0 <= j < idx.value ==> !Coincide(rutinas[j], consulta)
    requires idx.None? ==> forall j :: 0 <= j < |rutinas| ==> !Coincide(rutinas[j], consulta)
    ensures PrimeraCoincidencia(rutinas, consulta) == idx
    decreases |rutinas|
  {
    if rutinas != [] && !Coincide(rutinas[0], consulta) {
      var resto := rutinas[1..];
      var sub: Option<nat> := if idx.Some? then Some(idx.value - 1) else None;
      forall j | 0 <= j < (if sub.Some? then sub.value else |resto|)
        ensures !Coincide(resto[j], consulta)
      {
        assert resto[j] == rutinas[j + 1];
      }
      if sub.Some? {
        assert resto[sub.value] == rutinas[idx.value];
      }
      PrimeraCoincidenciaEs(resto, consulta, sub);
    }
  }

  /**
   * The delete handler once its list is loaded and its (stripped, non-empty) query is known: the first
   * entry matching the lower-cased query is removed and the others keep their order; with no match
   * the list is returned as it was. `borrada` is the index removed.
   */
  method Borrar(rutinas: seq<Guardada>, consulta: string) returns (resto: seq<Guardada>, borrada: Option<nat>)
    ensures borrada == PrimeraCoincidencia(rutinas, Minusculas(consulta))
    ensures borrada.None? ==> resto == rutinas
    ensures borrada.Some? ==> borrada.value < |rutinas| && resto == rutinas[..borrada.value] + rutinas[borrada.value + 1..]
  {
    var consultaLow := Minusculas(consulta);
    borrada := Buscar(rutinas, consultaLow);
    PrimeraCoincidenciaEs(rutinas, consultaLow, borrada);
    if borrada.Some? {
      resto := rutinas[..borrada.value] + rutinas[borrada.value + 1..];
    } else {
      resto := rutinas;
    }
  }

  /** Deleting removes one entry, the matched one, and every other entry keeps its relative order. */
  lemma BorrarUno(rutinas: seq<Guardada>, i: nat)
    requires i < |rutinas|
    ensures var resto := rutinas[..i] + rutinas[i + 1..];
            |resto| == |rutinas| - 1 &&
            (forall j :: 0 <= j < i ==> resto[j] == rutinas[j]) &&
            (forall j :: i <= j < |resto| ==> resto[j] == rutinas[j + 1]) &&
            multiset(resto) + multiset{rutinas[i]} == multiset(rutinas)
  {
    assert rutinas == rutinas[..i] + [rutinas[i]] + rutinas[i + 1..];
  }

  /** A nameless entry ahead of the wanted one is deleted in its place. */
  lemma SinNombreSeBorraPrimero(r: Guardada, otras: seq<Guardada>, consulta: string)
    requires r.Vacia? || r.nombre.Ausente?
    ensures PrimeraCoincidencia([r] + otras, consulta) == Some(0)
  {
    SinNombreCoincide(r, consulta);
  }

  /** The message text of an entry that has none (or an empty one). */
  const SinTexto: string := "No tengo texto guardado para esta rutina."

  /**
   * The view handler once its list is loaded and its (stripped, non-empty) query is known: the name to say (the
   * saved name, or the query when that is empty or missing) and the saved text (or a fixed message)
   * of the first matching entry. A first match that is an empty entry reads as false, so the handler
   * reports no match, just as when nothing matches.
   */
  method Ver(rutinas: seq<Guardada>, consulta: string) returns (r: Option<(string, string)>)
    ensures PrimeraCoincidencia(rutinas, Minusculas(consulta)).None? ==> r.None?
    ensures PrimeraCoincidencia(rutinas, Minusculas(consulta)).Some? ==>
              var e := rutinas[PrimeraCoincidencia(rutinas, Minusculas(consulta)).value];
              (e.Vacia? ==> r.None?) &&
              (e.Registro? ==>
                 (r.Some? &&
                  r.value.0 == (if e.nombre.Cadena? && e.nombre.s != "" then e.nombre.s else consulta) &&
                  r.value.1 == (if e.texto.Cadena? && e.texto.s != "" then e.texto.s else SinTexto)))
  {
    var consultaLow := Minusculas(consulta);
    var idx := Buscar(rutinas, consultaLow);
    PrimeraCoincidenciaEs(rutinas, consultaLow, idx);
    if idx.None? {
      return None;
    }
    var elegida := rutinas[idx.value];
    if elegida.Vacia? {
      return None;
    }
    var nom := if elegida.nombre.Cadena? && elegida.nombre.s != "" then elegida.nombre.s else consulta;
    var texto := if elegida.texto.Cadena? && elegida.texto.s != "" then elegida.texto.s else SinTexto;
    r := Some((nom, texto));
  }

  /** The name read out for an entry in the list: its name, or "sin nombre" when it has none or it is empty. */
  function NombreEnLista(r: Guardada): (n: string)
    ensures n != ""
    ensures r.Registro? && r.nombre.Cadena? && r.nombre.s != "" ==> n == r.nombre.s
  {
    if r.Registro? && r.nombre.Cadena? && r.nombre.s != "" then r.nombre.s else "sin nombre"
  }

  /**
   * The spoken list of names: the only name; two names joined by " y "; more names joined by ", "
   * with " y " before the last one.
   */
  function ListaTexto(nombres: seq<string>): (t: string)
    requires |nombres| >= 1
    ensures |nombres| == 1 ==> t == nombres[0]
    ensures |nombres| == 2 ==> t == nombres[0] + " y " + nombres[1]
    ensures |nombres| >= 3 ==> t == Unir(", ", nombres[..|nombres| - 1]) + " y " + nombres[|nombres| - 1]
  {
    var total := |nombres|;
    if total == 1 then nombres[0]
    else if total == 2 then
      assert nombres[1..] == [nombres[1]];
      assert Unir(" y ", nombres[1..]) == nombres[1];
      Unir(" y ", nombres)
    else Unir(", ", nombres[..total - 1]) + " y " + nombres[total - 1]
  }

  /**
   * The two- and many-name cases are one rule: every name but the last joined by ", ", then " y "
   * and the last name.
   */
  lemma ListaTextoRegla(nombres: seq<string>)
    requires |nombres| >= 2
    ensures ListaTexto(nombres) == Unir(", ", nombres[..|nombres| - 1]) + " y " + nombres[|nombres| - 1]
  {
    if |nombres| == 2 {
      assert nombres[1..] == [nombres[1]];
      assert Unir(" y ", nombres) == nombres[0] + " y " + Unir(" y ", [nombres[1]]);
      assert nombres[..1] == [nombres[0]];
    }
  }

  /** The text of a list starts with its first name and ends with its last one. */
  lemma {:induction false} ListaTextoExtremos(nombres: seq<string>)
    requires |nombres| >= 1
    ensures var t := ListaTexto(nombres);
            |t| >= |nombres[0]| && t[..|nombres[0]|] == nombres[0] &&
            |t| >= |nombres[|nombres| - 1]| && t[|t| - |nombres[|nombres| - 1]|..] == nombres[|nombres| - 1]
  {
    var n := |nombres|;
    if n >= 2 {
      ListaTextoRegla(nombres);
      var ini := nombres[..n - 1];
      assert ini[0] == nombres[0];
      UnirEmpieza(", ", ini);
    }
  }

  /** The names the list handler reads, one per saved entry, in order. */
  function Nombres(rutinas: seq<Guardada>): (ns: seq<string>)
    ensures |ns| == |rutinas|
    ensures forall i :: 0 <= i < |rutinas| ==> ns[i] == NombreEnLista(rutinas[i])
  {
    seq(|rutinas|, i requires 0 <= i < |rutinas| => NombreEnLista(rutinas[i]))
  }

  /** A string is a substring of itself followed by anything. */
  lemma {:induction false} PrefijoContenido(a: string, b: string, k: nat)
    requires k <= |a|
    ensures CoincideEn(a + b, a, 0, k)
    decreases |a| - k
  {
    if k < |a| {
      PrefijoContenido(a, b, k + 1);
    }
  }

  /** A string is a substring of any string that starts with it. */
  lemma ContienePrefijo(a: string, b: string)
    ensures Contiene(a + b, a)
  {
    PrefijoContenido(a, b, 0);
  }

  /** Lower-casing the stored name of the spoken example. */
  lemma MinusculasEjemplo()
    ensures Minusculas("Piernas lunes") == "piernas lunes"
  {
  }

  /** A query that starts the lower-cased name matches it. */
  lemma ConsultaEnNombre(n: string, q: string, resto: string)
    requires Minusculas(n) == q + resto
    ensures Coincide(Registro(Cadena(n), Ausente), q)
  {
    ContienePrefijo(q, resto);
  }

  /** A query that starts with the lower-cased name matches it. */
  lemma NombreEnConsulta(n: string, q: string, resto: string)
    requires q == Minusculas(n) + resto
    ensures Coincide(Registro(Cadena(n), Ausente), q)
  {
    ContienePrefijo(Minusculas(n), resto);
  }

  /**
   * Matching goes both ways: a saved "Piernas lunes" is found by the query "piernas" (inside the
   * name) and by "piernas lunes extra" (the name inside the query).
   */
  lemma CoincideEnAmbosSentidos(r: Guardada, corta: string, larga: string)
    requires r == Registro(Cadena("Piernas lunes"), Ausente)
    requires corta == "piernas" && larga == "piernas lunes extra"
    ensures Coincide(r, corta) && Coincide(r, larga)
  {
    MinusculasEjemplo();
    ConsultaEnNombre(r.nombre.s, corta, " lunes");
    NombreEnConsulta(r.nombre.s, larga, " extra");
  }
}
