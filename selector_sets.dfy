/** selector_sets.py: the lookup of an exercise set in the template bank, with its fallback keys. */
module SelectorSets {
  import opened Cadenas
  import opened Modelo

  /** The level token of the key: absent means "FACIL", upper-cased, and "MEDIO" is looked up as "INTERMEDIO". */
  function NivelClave(nivel: string): string {
    var n := Mayusculas(if nivel == "" then "FACIL" else nivel);
    if n == "MEDIO" then "INTERMEDIO" else n
  }

  /** The type token of the key: absent means "UPPER", upper-cased. */
  function TipoClave(tipo: string): string {
    Mayusculas(if tipo == "" then "UPPER" else tipo)
  }

  /** The key `TIPO_NIVEL_SOBREPESO` or `TIPO_NIVEL_NO_SOBREPESO`. */
  function Clave(tipo: string, nivel: string, sobrepeso: bool): string {
    TipoClave(tipo) + "_" + NivelClave(nivel) + "_" + (if sobrepeso then "SOBREPESO" else "NO_SOBREPESO")
  }

  /** `sets.get(k)`, an absent key reading as the empty list. */
  function Buscar(sets: map<string, seq<Paso>>, k: string): seq<Paso> {
    if k in sets then sets[k] else []
  }

  /**
   * `elegir_set`: the set under the exact key when it is non-empty; otherwise the type's easy
   * non-overweight set, then "UPPER_FACIL_NO_SOBREPESO", then the empty list.
   */
  function ElegirSet(data: Banco, nivel: string, tipo: string, sobrepeso: bool): (r: seq<Paso>)
    ensures Buscar(data.sets, Clave(tipo, nivel, sobrepeso)) != [] ==>
              r == data.sets[Clave(tipo, nivel, sobrepeso)]
    ensures Buscar(data.sets, Clave(tipo, nivel, sobrepeso)) == [] ==>
              r == if Buscar(data.sets, TipoClave(tipo) + "_FACIL_NO_SOBREPESO") != []
                   then data.sets[TipoClave(tipo) + "_FACIL_NO_SOBREPESO"]
                   else Buscar(data.sets, "UPPER_FACIL_NO_SOBREPESO")
  {
    var pasos := Buscar(data.sets, Clave(tipo, nivel, sobrepeso));
    if pasos != [] then pasos
    else
      var alterno := Buscar(data.sets, TipoClave(tipo) + "_FACIL_NO_SOBREPESO");
      if alterno != [] then alterno else Buscar(data.sets, "UPPER_FACIL_NO_SOBREPESO")
  }

  /** The result is empty, or it is one of the bank's sets. */
  lemma ElegirSetEsDelBanco(data: Banco, nivel: string, tipo: string, sobrepeso: bool)
    ensures ElegirSet(data, nivel, tipo, sobrepeso) == [] || ElegirSet(data, nivel, tipo, sobrepeso) in data.sets.Values
  {
  }

  /** The result is empty exactly when all three keys are missing or empty. */
  lemma ElegirSetVacio(data: Banco, nivel: string, tipo: string, sobrepeso: bool)
    ensures ElegirSet(data, nivel, tipo, sobrepeso) == [] <==>
            Buscar(data.sets, Clave(tipo, nivel, sobrepeso)) == [] &&
            Buscar(data.sets, TipoClave(tipo) + "_FACIL_NO_SOBREPESO") == [] &&
            Buscar(data.sets, "UPPER_FACIL_NO_SOBREPESO") == []
  {
  }

  /** A bank without a "sets" entry yields the empty list. */
  lemma SinSets(warmup: seq<Paso>, cooldown: seq<Paso>, nivel: string, tipo: string, sobrepeso: bool)
    ensures ElegirSet(Banco(warmup, cooldown, map[]), nivel, tipo, sobrepeso) == []
  {
  }

  /** "MEDIO" and "INTERMEDIO", in any letter case, select the same set; so do an absent level and "FACIL". */
  lemma NivelesEquivalentes(data: Banco, tipo: string, sobrepeso: bool)
    ensures ElegirSet(data, "MEDIO", tipo, sobrepeso) == ElegirSet(data, "INTERMEDIO", tipo, sobrepeso)
    ensures ElegirSet(data, "medio", tipo, sobrepeso) == ElegirSet(data, "MEDIO", tipo, sobrepeso)
    ensures ElegirSet(data, "", tipo, sobrepeso) == ElegirSet(data, "FACIL", tipo, sobrepeso)
  {
    assert NivelClave("MEDIO") == "INTERMEDIO";
    assert NivelClave("INTERMEDIO") == "INTERMEDIO";
    assert NivelClave("medio") == "INTERMEDIO";
    assert NivelClave("") == NivelClave("FACIL");
  }

  /** An absent type behaves as "UPPER". */
  lemma TipoAusente(data: Banco, nivel: string, sobrepeso: bool)
    ensures ElegirSet(data, nivel, "", sobrepeso) == ElegirSet(data, nivel, "UPPER", sobrepeso)
  {
    assert TipoClave("") == TipoClave("UPPER");
  }
}
