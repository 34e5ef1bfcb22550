# Entrenador Fit: the routine pipeline, in Dafny

This project models the core of "Entrenador Fit", an Alexa skill that builds a workout routine from
a person's weight, height, mode (manual or random), body part (UPPER or LOWER) and level (FACIL,
MEDIO or DIFICIL). The skill also saves, reads out, lists and deletes named routines.

A routine is a title and a list of steps. Each step (`Modelo.Paso`) has a `title`, a duration in
`segundos` and a spoken cue `decir`. The template bank (`Modelo.Banco`) holds a warm-up, a
cool-down and a map from keys such as `UPPER_INTERMEDIO_NO_SOBREPESO` to exercise sets.

`_generar_combinado` (`Generacion.GenerarCombinado`) runs the whole pipeline:

1. The set is looked up with its fallback keys (`SelectorSets.ElegirSet`).
2. A strategy keeps that set as it is or shuffles it (`ModosRutina.CrearStrategy`, `ModosRutina.Elegir`).
3. The facade frames the set with the warm-up and the cool-down and puts a rest between each two steps (`RutinaServicio.RoutineFacade.GenerarRutina`).
4. The routine is reshaped for the level:
   - at most one warm-up;
   - 4, 6 or 8 exercises, truncated or padded from a fixed pool and rescaled;
   - a copy of the first rest between consecutive exercises.

   This is `Ajustes.AjustarPorNivelYTipo`.
5. The rests are retuned for the BMI category (`Ajustes.AjustarDescansosPorImc`).
6. The routine is rendered as the spoken text, at most twelve steps (`Texto.ResumenYTexto`).

The model also covers the rest of the core:
- the slot normalisers (`Normalizacion`);
- both BMI computations (`Imc`, `ImcApp`);
- the fallback routine (`Ajustes.RutinaFallback`);
- the bounded "give me another one" loop (`Generacion.OtraRutina`);
- the first-match search, delete and view over the saved list, and the spoken list of names (`Guardadas`).

How the source is rendered in Dafny:
- Code that updates state in place is imperative:
  - the routine dictionary is the class `Modelo.Rutina`, and the two adjusters have `modifies` clauses;
  - the facade is a class;
  - the loops are `while` loops with invariants;
  - the shuffle is Fisher-Yates on an array.
- Each of these methods is proved against a function of its inputs. The properties the program promises are proved as lemmas about those functions.
- Random choices are nondeterministic: `:|` picks the swap partner, the drawn type and the drawn level. So each contract holds for every outcome.

Some behaviours are modelled as the code has them:
- **The BMI category always comes from app.py's own computation.** `clasificar_imc` looks for functions that imc.py does not define, so it always falls back to `_calc_imc_fallback`.
- **The two BMI computations can disagree.** For heights of at least 50 cm they agree (`ImcApp.FallbackCoincide`). Below 50 cm they part (`ImcApp.FallbackDifiere`).
- **The facade rests MEDIO like an unknown level, for 15 s.** Its table is keyed on "INTERMEDIO". `segundos_descanso` gives MEDIO 20 s (`RutinaServicio.DescansosComparados`).
- **The title is always the facade's "Rutina <tipo> <nivel>".** The title "Rutina <Tipo> - <Nivel>" that the reshaping would add is used only by `rutina_fallback`. So in the 70 kg / 172 cm / UPPER / MEDIO scenario the spoken title is "Rutina UPPER MEDIO", not a title-cased "Upper"/"Medio".
- **A saved entry with an empty or missing name matches every query** (`Guardadas.SinNombreCoincide`).
- **The retry loop always makes at least one attempt.** Its text starts out equal to the previous one.

## Model

| member | source | states |
|---|---|---|
| Imc.RedondearEntero | Codigo/Alexa/imc.py:7 | Python's `round` lands within half a unit of its argument |
| Imc.Redondear2 | Codigo/Alexa/imc.py:7 | `round(x, 2)` lands within 0.005 of `x` and keeps a non-negative value non-negative |
| Imc.CalcImcCm | Codigo/Alexa/imc.py:2-7 | 0.0 when the weight or the height is non-positive; otherwise within 0.005 of weight/(height/100)²; never negative |
| Imc.DegeneradoNoSobrepeso | Codigo/Alexa/imc.py:4-11 | a non-positive weight or height is never classified overweight |
| ImcApp.ImcFallback | Codigo/Alexa/app.py:154-157 | within 0.005 of weight/m², where m is the height in metres floored at 0.5 |
| ImcApp.Metros | Codigo/Alexa/app.py:156 | the height in metres is never below 0.5 |
| ImcApp.ClasificarMonotono | Codigo/Alexa/app.py:159-164 | a larger index never falls in a lighter band |
| ImcApp.ClasificarFronteras | Codigo/Alexa/app.py:159-164 | example: 18.5, 25 and 30 each belong to the higher band, and values just below them to the lower one |
| ImcApp.SobrepesoSegunBanda | Codigo/Alexa/imc.py:9-11 | `es_sobrepeso(v)` holds iff `_clasificar_por_imc_valor(v)` is SOBREPESO or OBESIDAD, for every v |
| ImcApp.ClasificarImc | Codigo/Alexa/app.py:166-182 | the category is one of the four names |
| ImcApp.FallbackCoincide | Codigo/Alexa/app.py:154-157 | for a positive weight and a height ≥ 50 cm the two indices are equal, so the facade's overweight flag agrees with the category |
| ImcApp.FallbackDifiere | Codigo/Alexa/app.py:154-157 | at a negative height imc.py says "not overweight" while app.py says OBESIDAD |
| Normalizacion.NormModo | Codigo/Alexa/app.py:114-119 | the result is "random" exactly for the four random words (stripped, lower-cased), else "manual" |
| Normalizacion.NormTipo | Codigo/Alexa/app.py:121-128 | "UPPER" iff the cleaned token is an upper-body synonym, "LOWER" iff a lower-body one, else "" |
| Normalizacion.NormNivel | Codigo/Alexa/app.py:130-139 | "FACIL", "MEDIO" or "DIFICIL" iff the cleaned token is in that level's list, else "" |
| Normalizacion.NormModoFijo | Codigo/Alexa/app.py:114-119 | "random" and "manual" are fixed points |
| Normalizacion.NormModoIdempotente | Codigo/Alexa/app.py:114-119 | normalising a mode twice is normalising it once |
| Normalizacion.NormTipoFijo | Codigo/Alexa/app.py:121-128 | "UPPER", "LOWER" and "" are fixed points |
| Normalizacion.NormTipoIdempotente | Codigo/Alexa/app.py:121-128 | normalising a type twice is normalising it once |
| Normalizacion.NormNivelFijo | Codigo/Alexa/app.py:130-139 | the three levels and "" are fixed points |
| Normalizacion.NormNivelIdempotente | Codigo/Alexa/app.py:130-139 | normalising a level twice is normalising it once |
| Normalizacion.NivelDeVacio | Codigo/Alexa/app.py:130-139 | a blank token gives no level |
| Normalizacion.NormEjemplos | Codigo/Alexa/app.py:114-139 | example: " Fácil" is FACIL, "PIERNAS" is LOWER, "Sorpresa" is random |
| Normalizacion.ParseEstaturaCm | Codigo/Alexa/app.py:141-151 | None iff the slot is missing; a value below 3 is metres (×100) and anything else centimetres, rounded to within half a unit |
| Normalizacion.MetrosOCentimetros | Codigo/Alexa/app.py:149-151 | the same height in metres or in centimetres parses alike |
| Normalizacion.ParseEstaturaEjemplos | Codigo/Alexa/app.py:141-151 | example: 1.72, 172 and 172.4 give 172; 0.5 gives 50 |
| Normalizacion.EstaturaEfectiva | Codigo/Alexa/app.py:408 | a missing or zero height becomes 170 cm, any other is kept, and the result is never 0 |
| Normalizacion.PesoEfectivo | Codigo/Alexa/app.py:407 | an unreadable weight becomes 70 kg, any other is kept |
| Cadenas.Strip | Codigo/Alexa/app.py:116 | the result neither starts nor ends with whitespace and is no longer than the input |
| Cadenas.StripTramo | Codigo/Alexa/app.py:116 | `strip()` keeps a slice of the input and removes only whitespace before and after it |
| Cadenas.StripIdempotente | Codigo/Alexa/app.py:489 | stripping twice is stripping once |
| Cadenas.NatATexto | Codigo/Alexa/rutina_servicio.py:45 | `str(n)` is a non-empty string of decimal digits |
| Cadenas.ValorNatATexto | Codigo/Alexa/rutina_servicio.py:45 | reading back the digits of `str(n)` gives `n` |
| Cadenas.UnirAgregar | Codigo/Alexa/app.py:308 | `sep.join` of one more piece is the join so far, the separator and the piece, so the pieces are separated by exactly one separator |
| SelectorSets.ElegirSet | Codigo/Alexa/selector_sets.py:1-16 | the exact key's set when non-empty; otherwise the type's FACIL_NO_SOBREPESO set when non-empty; otherwise UPPER_FACIL_NO_SOBREPESO's or [] |
| SelectorSets.ElegirSetEsDelBanco | Codigo/Alexa/selector_sets.py:12-16 | the result is empty or one of the bank's sets |
| SelectorSets.ElegirSetVacio | Codigo/Alexa/selector_sets.py:13-15 | the result is empty iff all three keys are missing or empty |
| SelectorSets.SinSets | Codigo/Alexa/selector_sets.py:9-15 | a bank without "sets" yields [] |
| SelectorSets.NivelesEquivalentes | Codigo/Alexa/selector_sets.py:3-7 | MEDIO, medio and INTERMEDIO select the same set; an absent level selects FACIL's |
| SelectorSets.TipoAusente | Codigo/Alexa/selector_sets.py:4 | an absent type selects UPPER's set |
| ModosRutina.Barajar | Codigo/Alexa/modos_rutina.py:25 | the shuffle leaves the array a permutation of what it was |
| ModosRutina.Elegir | Codigo/Alexa/modos_rutina.py:13-26 | SimpleKey returns the selector's list unchanged; Randomized returns a list with the same length and multiset |
| ModosRutina.CrearStrategy | Codigo/Alexa/modos_rutina.py:29-36 | SimpleKey iff the stripped, lower-cased mode is "manual"; the selector is passed on |
| ModosRutina.SemillaIgnorada | Codigo/Alexa/modos_rutina.py:29-36 | the seed has no effect on the strategy |
| ModosRutina.ModosEjemplo | Codigo/Alexa/modos_rutina.py:32-36 | example: " Manual " gives SimpleKey; "" and "random" give Randomized |
| Modelo.Rutina.constructor | Codigo/Alexa/rutina_creador.py:43 | a routine dictionary holds the given title and steps |
| Modelo.Intercalar | Codigo/Alexa/rutina_creador.py:20-30 | n steps with rests become 2n−1 steps, or none for n = 0 |
| Modelo.IntercalarPosiciones | Codigo/Alexa/rutina_creador.py:22-29 | the original steps sit at the even positions in order, and the rest at every odd one |
| Modelo.IntercalarUnico | Codigo/Alexa/rutina_creador.py:20-30 | that length and those positions determine the interleaving |
| Modelo.IntercalarTras | Codigo/Alexa/app.py:271-274 | the append loop builds the prefix followed by the interleaving |
| Modelo.Filtrar | Codigo/Alexa/app.py:245-247 | a filtered list is no longer than its input and every kept element passes the filter |
| Modelo.FiltrarContenido | Codigo/Alexa/app.py:245-247 | an element is kept iff it is in the input and passes the filter |
| Modelo.FiltrarPrimero | Codigo/Alexa/app.py:266 | the first kept element is the first element of the input that passes |
| Modelo.SumaConcat | Codigo/Alexa/rutina_servicio.py:40 | the total of a concatenation is the sum of the totals |
| Modelo.SumaIntercalar | Codigo/Alexa/rutina_servicio.py:40 | interleaving n ≥ 1 steps adds the rest's seconds n−1 times |
| RutinaCreador.SegundosDescanso | Codigo/Alexa/rutina_creador.py:3-18 | the rest is 15, 20, 25 or 30 s; at least 20 s when overweight, at most 25 s otherwise |
| RutinaCreador.SobrepesoSumaCinco | Codigo/Alexa/rutina_creador.py:15-18 | being overweight adds exactly 5 s at every level |
| RutinaCreador.SegundosDescansoTabla | Codigo/Alexa/rutina_creador.py:4-12 | example: FACIL 15, MEDIO 20, DIFICIL 25 in either case; "" and INTERMEDIO rest like FACIL |
| RutinaCreador.Descanso | Codigo/Alexa/rutina_creador.py:25-29 | the inserted rest lasts the given seconds |
| RutinaCreador.DescansoEsDescanso | Codigo/Alexa/rutina_creador.py:25-29 | the inserted step is classified as a rest and not as a warm-up |
| RutinaCreador.InsertarDescansos | Codigo/Alexa/rutina_creador.py:20-30 | the loop's output is the steps interleaved with the rest |
| RutinaCreador.CrearRutinaDesdeData | Codigo/Alexa/rutina_creador.py:32-43 | a new routine titled "Rutina <tipo> <nivel>" whose steps are warm-up ++ selected set ++ cool-down with the level's rest between each two |
| RutinaCreador.IntercalarBloques | Codigo/Alexa/rutina_creador.py:40-41 | each of the three blocks lands at the even positions after the earlier blocks, with the rest at every odd position |
| RutinaCreador.PasosCreadosForma | Codigo/Alexa/rutina_creador.py:32-43 | the created routine has 2n−1 steps: warm-up, set and cool-down in order at the even positions, the level's rest at the odd ones |
| RutinaServicio.DescansoFacade | Codigo/Alexa/rutina_servicio.py:21-23 | the facade's rest is 15, 20, 25 or 30 s, and at least 20 s when overweight |
| RutinaServicio.DescansosComparados | Codigo/Alexa/rutina_servicio.py:21-23 | the facade and `segundos_descanso` agree except that MEDIO gets 5 s less and INTERMEDIO 5 s more in the facade |
| RutinaServicio.RoutineFacade.constructor | Codigo/Alexa/rutina_servicio.py:5-7 | the facade holds the given bank and strategy |
| RutinaServicio.RoutineFacade.GenerarRutina | Codigo/Alexa/rutina_servicio.py:9-37 | without a strategy, exactly `crear_rutina_desde_data` with the imc.py overweight flag; with one, some choice of the strategy framed by warm-up and cool-down, interleaved with the facade's rest; titled "Rutina <tipo> <nivel>" |
| RutinaServicio.RoutineFacade.DuracionEstimadaSeg | Codigo/Alexa/rutina_servicio.py:39-40 | 0 for no steps, and non-negative when every step's seconds are |
| RutinaServicio.RoutineFacade.FormatearResumen | Codigo/Alexa/rutina_servicio.py:42-45 | the text starts with the title ("Rutina" if missing) and reads minutes m and seconds s with 60m+s equal to the total and 0 ≤ s < 60 |
| RutinaServicio.SumaNoNegativa | Codigo/Alexa/rutina_servicio.py:40 | non-negative step durations give a non-negative total |
| RutinaServicio.MinutosSegundos | Codigo/Alexa/rutina_servicio.py:44 | `divmod(total, 60)`: 60m+s equals the total and 0 ≤ s < 60 |
| RutinaServicio.MinutosSegundosUnicos | Codigo/Alexa/rutina_servicio.py:44 | that pair is the only one with those properties |
| RutinaServicio.DuracionRutina | Codigo/Alexa/rutina_servicio.py:39-40 | a facade routine lasts its steps plus one rest fewer than it has steps |
| RutinaServicio.SumaPermutacion | Codigo/Alexa/rutina_servicio.py:39-40 | the duration does not depend on the order a strategy put the set in |
| Ajustes.PoolUpperSonEjercicios | Codigo/Alexa/app.py:204-209 | every POOL_UPPER entry is an exercise, neither a rest nor a warm-up |
| Ajustes.PoolLowerSonEjercicios | Codigo/Alexa/app.py:210-215 | every POOL_LOWER entry is an exercise |
| Ajustes.Pool | Codigo/Alexa/app.py:256 | the padding pool has four 30-second exercises |
| Ajustes.Objetivo | Codigo/Alexa/app.py:250 | the target is 4, 6 or 8; 4 iff FACIL, 8 iff DIFICIL |
| Ajustes.ObjetivoTabla | Codigo/Alexa/app.py:250 | example: FACIL 4, MEDIO 6, DIFICIL 8; lower-case or unknown levels 6 |
| Ajustes.Rellenar | Codigo/Alexa/app.py:253-260 | min(target, n + 2·pool) steps: the first ones kept in order, then pool copies taken cyclically |
| Ajustes.RellenarCompleto | Codigo/Alexa/app.py:255-260 | the two-round guard never stops the padding short of the target |
| Ajustes.RecortarORellenar | Codigo/Alexa/app.py:253-260 | the truncate-or-pad loop computes that padding |
| Ajustes.NormalizarSegundosEjercicio | Codigo/Alexa/app.py:226-234 | rests and unknown levels are unchanged; FACIL ≥ 20 s near base×0.8; MEDIO exactly max(25, base); DIFICIL ≥ 35 s near base×1.2; title and cue kept |
| Ajustes.NormalizarPool | Codigo/Alexa/app.py:230-232 | example: a 30-second exercise lasts 24, 30 or 36 s at the three levels |
| Ajustes.NormalizarConservaClase | Codigo/Alexa/app.py:226-234 | rescaling keeps a step a rest or an exercise |
| Ajustes.Normalizados | Codigo/Alexa/app.py:263 | rescaling keeps the number of exercises |
| Ajustes.DescansoPorDefectoEsDescanso | Codigo/Alexa/app.py:266 | the default "Descanso" template is a rest and not a warm-up |
| Ajustes.Plantilla | Codigo/Alexa/app.py:266 | the template is the first rest when there is one, and a rest whenever all candidates are |
| Ajustes.Cabeza | Codigo/Alexa/app.py:268-270 | only the first warm-up is kept, and none when there are none |
| Ajustes.AjustarPorNivelYTipo | Codigo/Alexa/app.py:236-278 | an empty routine is unchanged; otherwise the steps become the reshaped routine, a missing title is filled in and an existing one kept |
| Ajustes.RellenadosSonEjercicios | Codigo/Alexa/app.py:253-263 | the level's target count of exercises, every one an exercise |
| Ajustes.ReajusteLongitud | Codigo/Alexa/app.py:265-275 | a reshaped routine has (warm-up kept) + 2·target − 1 steps |
| Ajustes.ReajusteCabeza | Codigo/Alexa/app.py:268-270 | the warm-up kept comes first and is the first warm-up found |
| Ajustes.ReajusteDescansos | Codigo/Alexa/app.py:271-274 | every odd offset after the warm-up holds the rest template |
| Ajustes.ReajusteEnPares | Codigo/Alexa/app.py:271-274 | the exercises sit at the even offsets after the warm-up, in order |
| Ajustes.EjerciciosPropios | Codigo/Alexa/app.py:253-263 | the routine's own exercises come first, in order and rescaled, as many as the target allows |
| Ajustes.EjerciciosDelPool | Codigo/Alexa/app.py:255-263 | past them come rescaled pool copies taken cyclically from the pool's start |
| Ajustes.ReajusteClasePares | Codigo/Alexa/app.py:271-274 | the target number of exercise steps sit at the even offsets after the warm-up |
| Ajustes.ReajusteExtremos | Codigo/Alexa/app.py:265-275 | the first step is the warm-up kept or an exercise; the last step is an exercise, never a rest |
| Ajustes.ReajusteCalentamiento | Codigo/Alexa/app.py:245-270 | the warm-up in front is the earliest warm-up of the original routine |
| Ajustes.AjustarDescanso | Codigo/Alexa/app.py:192-200 | non-rests are unchanged; SOBREPESO/OBESIDAD give max(30, s+15), NORMAL gives max(10, s−5), other categories change nothing |
| Ajustes.AjustarDescansosPorImc | Codigo/Alexa/app.py:185-201 | every step is retuned for the upper-cased category; title, length and order are kept |
| Ajustes.AjustarDescansoConservaClase | Codigo/Alexa/app.py:192-200 | retuning keeps each step a rest, an exercise or a warm-up |
| Ajustes.RutinaFallback | Codigo/Alexa/app.py:324-338 | a new routine titled "Rutina <Tipo> - <Nivel>" with the fallback steps |
| Ajustes.FallbackForma | Codigo/Alexa/app.py:326-337 | 2n steps for target n: "Calentamiento" 60 s, then pool exercise k mod 4 rescaled at 2k+1 and the 20 s "Descanso" at 2k+2 |
| Texto.Resumen | Codigo/Alexa/app.py:284-287 | the heading is the title, or "Rutina generada." when it is missing or empty |
| Texto.Numerar | Codigo/Alexa/app.py:293 | `enumerate(xs, 1)`: element k is numbered k+1 |
| Texto.Lineas | Codigo/Alexa/app.py:293-305 | one line per step |
| Texto.ResumenYTexto | Codigo/Alexa/app.py:281-308 | the loop with its break yields the stripped heading and the numbered lines of the first 12 steps, joined by single spaces |
| Texto.PartesLongitud | Codigo/Alexa/app.py:291-307 | exactly 1 + min(steps, 12) pieces, the first the stripped heading |
| Texto.PartesLineas | Codigo/Alexa/app.py:293-305 | piece k is the line "Paso k…" of step k |
| Texto.UnirLongitud | Codigo/Alexa/app.py:308 | length identity: the joined text is as long as its pieces plus one separator between each two |
| Texto.TextoEmpiezaConResumen | Codigo/Alexa/app.py:291-308 | the spoken text starts with the stripped heading |
| Texto.LineaNumerada | Codigo/Alexa/app.py:302 | a line starts with "Paso " and the digits after it read back the step number |
| Texto.DuracionForma | Codigo/Alexa/app.py:302 | zero seconds say only "."; any other says ", <s> segundos." |
| Texto.IndicacionForma | Codigo/Alexa/app.py:297-304 | a blank cue adds nothing; otherwise a space and the stripped cue |
| Guardadas.NombreLeido | Codigo/Alexa/app.py:694-696 | an empty entry or a missing name reads as "", a string name as itself, and a null name is skipped |
| Guardadas.SinNombreCoincide | Codigo/Alexa/app.py:694-698 | an entry with an empty or missing name, or an empty entry, matches every query |
| Guardadas.NuloNoCoincide | Codigo/Alexa/app.py:694-698 | an entry whose name is null never matches |
| Guardadas.ConsultaEnNombre | Codigo/Alexa/app.py:698 | a query that starts the lower-cased name matches it |
| Guardadas.NombreEnConsulta | Codigo/Alexa/app.py:698 | a query that starts with the lower-cased name matches it |
| Guardadas.CoincideEnAmbosSentidos | Codigo/Alexa/app.py:698 | example: "Piernas lunes" is found both by "piernas" and by "piernas lunes extra" |
| Guardadas.Buscar | Codigo/Alexa/app.py:690-702 | the search loop returns the index of a matching entry with no match before it, and None iff no entry matches |
| Guardadas.PrimeraCoincidencia | Codigo/Alexa/app.py:692-700 | the recursive first-match index, when present, is in range |
| Guardadas.PrimeraCoincidenciaEs | Codigo/Alexa/app.py:692-700 | any index that matches with no match before it (or None with no match at all) is the recursive first match |
| Guardadas.Borrar | Codigo/Alexa/app.py:761-788 | the first entry matching the lower-cased query is removed and the others keep their order; with no match the list is unchanged |
| Guardadas.BorrarUno | Codigo/Alexa/app.py:787 | `del rutinas[i]` leaves one entry fewer, the entries before i in place, those after it shifted by one, and exactly one copy of entry i gone from the multiset |
| Guardadas.SinNombreSeBorraPrimero | Codigo/Alexa/app.py:764-773 | a nameless entry at the front is the first match, hence the one deleted, whatever the query |
| Guardadas.Ver | Codigo/Alexa/app.py:689-717 | no match, or a first match that is an empty entry, reports nothing found; otherwise the saved name (or the query) and the saved text (or the fixed message) of the first match |
| Guardadas.NombreEnLista | Codigo/Alexa/app.py:622-631 | the listed name is never empty: the saved name, or "sin nombre" |
| Guardadas.Nombres | Codigo/Alexa/app.py:622-631 | one listed name per saved entry, in order |
| Guardadas.ListaTexto | Codigo/Alexa/app.py:633-640 | one name alone; two names as "a y b"; more names joined by ", " with " y " before the last |
| Guardadas.ListaTextoRegla | Codigo/Alexa/app.py:633-640 | the two- and many-name cases are the same rule: all but the last joined by ", ", then " y " and the last |
| Guardadas.ListaTextoExtremos | Codigo/Alexa/app.py:633-640 | the spoken list starts with the first name and ends with the last |
| Generacion.TipoEfectivo | Codigo/Alexa/app.py:381 | `tipo or "UPPER"` |
| Generacion.Retocados | Codigo/Alexa/app.py:192-200 | the retuned steps are the steps each retuned, same length |
| Generacion.GenerarCombinado | Codigo/Alexa/app.py:373-385 | the spoken text is the rendering of the retuned, reshaped facade routine for some choice the mode's strategy can make |
| Generacion.BancoVacioSoloTitulo | Codigo/Alexa/app.py:373-385 | with an empty bank only the stripped title is spoken |
| Generacion.ReajusteForma | Codigo/Alexa/app.py:265-275 | a reshaped routine has at most one warm-up in front, target exercises at even offsets, rests between, and no rest last |
| Generacion.RetocadosForma | Codigo/Alexa/app.py:185-201 | retuning the rests keeps that layout |
| Generacion.PasosCombinadosForma | Codigo/Alexa/app.py:373-385 | every generated routine from at least one bank step has that layout with the level's target |
| Generacion.Imc70x172 | Codigo/Alexa/app.py:154-164 | example: 70 kg at 172 cm is NORMAL and not overweight |
| Generacion.PrimerDescansoFacade | Codigo/Alexa/app.py:266 | when the bank's steps hold no rest, the rest template is the facade's rest |
| Generacion.DescansoMedio | Codigo/Alexa/rutina_servicio.py:21 | example: the facade rests MEDIO for 15 s |
| Generacion.DescansoNormal | Codigo/Alexa/app.py:198-199 | example: a 15 s rest retuned for NORMAL lasts 10 s |
| Generacion.ReajusteConDescansoFacade | Codigo/Alexa/app.py:266-274 | reshaping a rest-free bank routine puts the facade's rest at every odd offset |
| Generacion.CombinadosMedio | Codigo/Alexa/app.py:373-385 | for 70 kg, 172 cm, MEDIO, UPPER: 15 s facade rests, then reshape and NORMAL retuning |
| Generacion.EscenarioMedioForma | Codigo/Alexa/app.py:373-385 | that scenario yields 6 exercises with a rest between each two |
| Generacion.EscenarioMedioDescansos | Codigo/Alexa/app.py:373-385 | in that scenario each of the five rests lasts 10 s |
| Generacion.EscenarioMedio | Codigo/Alexa/app.py:373-385 | end to end: the layout with 6 exercises and every rest at 10 s |
| Generacion.Intento | Codigo/Alexa/app.py:490-495 | an attempt renders a random-strategy routine; a manual session keeps its level and type, any other draws them from the fixed lists; the flag says whether the text repeats |
| Generacion.OtraRutina | Codigo/Alexa/app.py:486-497 | 1 to 5 generations; every earlier text was a repeat; the last differs from the previous text unless all 5 were spent |

## Left out

- The Alexa handlers are not modelled: request dispatch, slot elicitation, response building, session attributes and the help, cancel and fallback handlers. Only the retry loop, the name search, delete and view, and the list join are lifted out of them.
- S3 persistence and the loading of routines.json are I/O. The saved list and the template bank are parameters.
- `print` and logging are output only and are left out.
- Numeric parsing:
  - `_safe_int` and `_safe_float` on arbitrary objects are left out;
  - a step's seconds are an `int`;
  - a slot value is an already-parsed number or None.
- Duck-typed lookups are left out: the alternative keys `duracion`, `nombre`, `descripcion` and `rutina`, and routines given as bare lists or strings. This also covers:
  - the `isinstance` guards that return a non-dictionary routine unchanged;
  - the `or 0` / `or ""` coercions of `resumen_y_texto`.
- A Python `None` level, type or mode is modelled as `""`. Wherever the source reads it through `x or default` the two behave alike. They differ in `f"Rutina {tipo} {nivel}"` (rutina_creador.py:38, rutina_servicio.py:37), which would say "None", and in `tipo.title()` / `nivel.title()` (app.py:277, app.py:338), which would raise. The skill never passes None there, since the handlers ask for every slot first.
- Guardadas.NombreLeido: a name of another JSON type (number, list) is not modelled. Only a missing name, a string and null are.
- `intentar_generar`'s exception capture and the `rutina is None` branch of `_generar_combinado` are left out. Generation cannot fail in the model, so `rutina_fallback` is modelled on its own (`Ajustes.RutinaFallback`).
- The `hasattr` probing of `clasificar_imc` is left out. Only the branch it always reaches is modelled.
- The abstract `SetSelectionStrategy` base, which raises NotImplementedError, has no variant. Only its two subclasses are modelled.
- Cadenas.Minusculas: lower- and upper-casing, and `title()`, act on ASCII letters only. Accented capitals are kept as they are. Cadenas.EsEspacio, used by `Cadenas.Strip`, is ASCII whitespace plus the separators 28 to 31; the non-ASCII spaces that `str.strip()` also removes (such as `\x85`, `\xa0` and the Unicode spaces) are kept.
- Imc.RedondearEntero: rounding is exact half-to-even on reals, not on binary floating point. `Imc.CalcImcCm`, `ImcApp.ImcFallback` and `Normalizacion.ParseEstaturaCm` are therefore stated as within half a unit of the exact value.
- Ajustes.NormalizarSegundosEjercicio: the FACIL and DIFICIL cases are stated as the floor plus a half-second band around base×0.8 and base×1.2, not as an exact value.
- ModosRutina.Barajar: only the permutation is stated. The uniform distribution of `random.shuffle`, and of `random.choice` in the retry loop, is not modelled.
- Generacion.OtraRutina: the ghost history holds the texts before the last one. After five attempts the contract says nothing about whether the last text repeats, and neither does the code.
- Generacion.ReajusteForma: a warm-up whose title also contains a rest keyword is both a warm-up and a rest. For a kept warm-up, the layout does not state that the first step is not a rest.
