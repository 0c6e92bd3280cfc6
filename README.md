# Nutrition estimate of a meal plan, in Dafny

This project models the nutrition estimator of MyNutri-AI's web front end, `frontend/src/utils/estimativaNutricional.ts`. From a generated meal plan, the estimator computes:

- approximate energy (kcal) and macronutrients (protein, carbohydrate, fat);
- the estimate per meal and for the whole day;
- each meal's share of the day's energy;
- the first and the last suggested meal time.

The model is split into modules, one per stage:

- **`Texto`** — the string operations the estimator relies on: `toLowerCase`, `includes` and `endsWith`.
- **`Regras`** — ordered first-match rule tables, with the lemmas that say which rule decides.
- **`Conversao`** — `gramasAproximados`. A quantity and a unit text become grams through eight ordered unit rules.
- **`Nutrientes`** — `TABELA_ESTIMATIVA`, the 17 keyword rows with their kcal and macros per 100 g, and `buscarNutrientes`.
- **`Plano`** — the plan document: `ItemRefeicao`, `Refeicao` and `PlanoAlimentar`.
- **`Estimativa`** — `estimarRefeicao` and `estimarNutricao`.
  - The functions (`KcalRefeicao`, `ParcialRefeicao`, `Acumulado`, `Resumo`) say what is computed.
  - The methods (`EstimarRefeicao`, `SomarItens`, `EstimarParcial`, `PercorrerRefeicoes`, `PreencherPercentuais`, `EstimarNutricao`) compute it with the source's loops and running totals. Each is proved equal to its function.
- **`Invariantes`** — what the summary promises, proved for every plan:
  - `totalKcal` is the sum of the per-meal values.
  - Percentages are bounded.
  - Entries correspond one to one with meals.
  - Start and end times are the first and last present, in plan order.
- **`ExemplosDeUnidades`**, **`ExemplosDeAlimentos`** and **`ExemplosDePlanos`** — concrete units, food names, meals and plans, worked through the model.

How the model represents the source's values:

- **Numbers** are `real`. `Math.round` is `Round(x) = ⌊x + 0.5⌋`.
- **The quantity text** is modelled after `parseFloat`, as `Option<real>`. `None` stands for a missing quantity or one that does not parse (NaN).
- **Optional fields** are `Option` values.
- **`toLowerCase`** lowers A–Z and the Latin-1 capitals À–Þ except ×.

Two behaviours of the code a reader might not expect, both modelled as written:

- **Quantities below 1.** `gramasAproximados` clamps with `Math.max(1, …)` (`estimativaNutricional.ts:32`). A quantity of 0.5 therefore counts as 1. A parsed 0 is falsy, so it becomes 1 before the clamp.
- **"pote 170g".** The `endsWith("g")` test at `estimativaNutricional.ts:34` comes before the pot test at :41. A unit such as "pote 170g" ends in "g", so three of them weigh 3 g, not 170 g (`Conversao.PoteDe170`, `ExemplosDeUnidades.PoteDe170GramasTerminaEmG`). The fixed 170 g applies only to a unit that contains "pote" and "170" and matches no earlier rule (`ExemplosDeUnidades.PoteDe170Fixo`).

## Model

| member | source | states |
|---|---|---|
| Numeros.Round | frontend/src/utils/estimativaNutricional.ts:106 | `Math.round` gives the integer within half a unit of its argument, rounding halves up |
| Numeros.RoundInteiro | frontend/src/utils/estimativaNutricional.ts:139 | rounding an integer value leaves it unchanged, so re-rounding `estimarRefeicao`'s result is harmless |
| Numeros.RoundNaoNegativo | frontend/src/utils/estimativaNutricional.ts:153-155 | rounding a non-negative amount gives a natural number |
| Texto.MinusculaChar | frontend/src/utils/estimativaNutricional.ts:46 | the lowered character is never a capital, and non-capitals are unchanged |
| Texto.Minuscula | frontend/src/utils/estimativaNutricional.ts:46 | `toLowerCase` keeps the length and leaves no capital; it returns its argument unchanged exactly when the argument has no capital (both directions) |
| Texto.MinusculaSemMaiusculas | frontend/src/utils/estimativaNutricional.ts:33 | text without capitals is its own lower-case form |
| Texto.MinusculaCapitalizada | frontend/src/utils/estimativaNutricional.ts:97 | a capitalised name lowers to its small initial followed by the rest |
| Texto.MinusculaIdempotente | frontend/src/utils/estimativaNutricional.ts:46 | lower-casing twice is lower-casing once |
| Texto.Contem | frontend/src/utils/estimativaNutricional.ts:36-41 | definition, no contract: `s.includes(p)`, `p` is a prefix of `s` or of one of its suffixes (characterised by `Texto.ContemSeOcorre`) |
| Texto.TerminaEm | frontend/src/utils/estimativaNutricional.ts:34-35 | definition, no contract: `s.endsWith(p)` |
| Texto.ContemAlguma | frontend/src/utils/estimativaNutricional.ts:48 | definition, no contract: `palavras.some(p => n.includes(p))`, words tried in order (characterised by `Texto.ContemAlgumaSeAlguma`) |
| Texto.ContemSeOcorre | frontend/src/utils/estimativaNutricional.ts:48 | `s.includes(p)` holds exactly when `p` occurs in `s` at some position (both directions) |
| Texto.NaoContemCaractere | frontend/src/utils/estimativaNutricional.ts:48 | a character of `p` that `s` lacks rules out `s.includes(p)` |
| Texto.NenhumaContida | frontend/src/utils/estimativaNutricional.ts:48 | when every word has a character the text lacks, `palavras.some(p => n.includes(p))` is false |
| Texto.ContemAlgumaSeAlguma | frontend/src/utils/estimativaNutricional.ts:48 | `some(includes)` holds exactly when some word of the list occurs (both directions) |
| Texto.IgualTerminaEm | frontend/src/utils/estimativaNutricional.ts:34-35 | `u === p` implies `u.endsWith(p)`, so the equality half of each test is subsumed |
| Texto.ContemPrefixo | frontend/src/utils/estimativaNutricional.ts:40 | whatever includes `p + q` includes `p` |
| Regras.Casa | frontend/src/utils/estimativaNutricional.ts:34-41 | definition, no contract: the `===`, `endsWith`, `includes` and `some` tests, and their disjunctions and conjunctions, the three tables use |
| Regras.PrimeiraRegra | frontend/src/utils/estimativaNutricional.ts:47-52 | definition, no contract: the `for` loop with early return, the default when no rule matches (characterised by the lemmas below) |
| Regras.PrimeiraRegraDesde | frontend/src/utils/estimativaNutricional.ts:47-51 | one step of an ordered search: rule `k` decides when it matches, otherwise the search goes on at `k + 1` |
| Regras.PrimeiraRegraCasa | frontend/src/utils/estimativaNutricional.ts:47-51 | the first matching rule's value is the result, whatever later rules say |
| Regras.PrimeiraRegraNenhuma | frontend/src/utils/estimativaNutricional.ts:52 | when no rule matches, the default is the result |
| Regras.PrimeiraRegraOrigem | frontend/src/utils/estimativaNutricional.ts:45-53 | every search ends either at a first matching rule with its value, or with no rule matching and the default |
| Regras.PrimeiraRegraEntreValores | frontend/src/utils/estimativaNutricional.ts:45-53 | the result is the default or the value of some rule |
| Conversao.REGRAS_UNIDADE | frontend/src/utils/estimativaNutricional.ts:34-41 | definition, no contract: the eight unit rules with their patterns and factors, in source order |
| Conversao.RegraDaUnidade | frontend/src/utils/estimativaNutricional.ts:34-42 | definition, no contract: the first unit rule matching the lower-cased unit, else the 50 g serving (characterised by `Conversao.RegraDaUnidadeComoCadeia`) |
| Conversao.Aplicar | frontend/src/utils/estimativaNutricional.ts:34-42 | definition, no contract: a per-unit rule returns `q * factor`, the pot rule returns 170 (bounded by `Conversao.AplicarMonotono`) |
| Conversao.PORCAO_MEDIA | frontend/src/utils/estimativaNutricional.ts:42 | definition, no contract: the `q * 50` average-serving fallback |
| Conversao.QuantidadeEfetiva | frontend/src/utils/estimativaNutricional.ts:32 | the quantity used is the parsed value when it is at least 1, and 1 otherwise (missing, NaN, 0, negative or below 1) |
| Conversao.RegraDaUnidadeAoMenosUmGrama | frontend/src/utils/estimativaNutricional.ts:34-42 | every unit rule and the fallback turn a quantity of at least 1 into at least 1 g |
| Conversao.GramasAproximados | frontend/src/utils/estimativaNutricional.ts:31-43 | an item always weighs at least 1 g |
| Conversao.PadroesDaUnidadeAteColher | frontend/src/utils/estimativaNutricional.ts:34-37 | the first four rules test "g", "ml", "colher de servir"/"concha" and "colher de sopa" as the source's guards do |
| Conversao.PadroesDaUnidadeDesdeFatia | frontend/src/utils/estimativaNutricional.ts:38-41 | the last four rules test "fatia", "xícara", "unidade"/"unidade média" and "pote" with "170" |
| Conversao.RegraDaUnidadeDesdobrada | frontend/src/utils/estimativaNutricional.ts:34-42 | the unit search tries the eight rules in order, each only after all earlier ones fail, then the 50 g serving |
| Conversao.RegraDaUnidadeComoCadeia | frontend/src/utils/estimativaNutricional.ts:34-42 | the rule table selects exactly what the source's chain of guarded returns selects: 1, 1.02, 55, 15, 30, 150, 100 g per unit, a fixed 170 g, or 50 g |
| Conversao.GramasComoCadeia | frontend/src/utils/estimativaNutricional.ts:31-43 | `gramasAproximados` gives the clamped quantity times the chosen factor, or 170 for the pot rule |
| Conversao.TerminaEmGramas | frontend/src/utils/estimativaNutricional.ts:34 | a unit whose lower-case form ends in "g" gives the effective quantity itself |
| Conversao.UnidadeMediaEhUnidade | frontend/src/utils/estimativaNutricional.ts:40 | the "unidade média" test is subsumed by the "unidade" test |
| Conversao.PoteDe170 | frontend/src/utils/estimativaNutricional.ts:34-41 | the fixed 170 g applies exactly when the unit contains "pote" and "170" and does not end in "g" or "ml" or contain any earlier keyword (both directions) |
| Conversao.AplicarMonotono | frontend/src/utils/estimativaNutricional.ts:34-42 | every unit rule gives no fewer grams for a larger quantity: per-unit factors are at least 1, the pot weight is constant |
| Conversao.GramasMonotonos | frontend/src/utils/estimativaNutricional.ts:31-43 | for the same unit, a larger effective quantity never weighs less |
| Nutrientes.Perfil | frontend/src/utils/estimativaNutricional.ts:4-10 | definition, no contract: a row's kcal, protein, carb and fat per 100 g, also the lookup's return shape at :45 |
| Nutrientes.TABELA_ESTIMATIVA | frontend/src/utils/estimativaNutricional.ts:4-28 | definition, no contract: the 17 rows, their words and their kcal/protein/carb/fat per 100 g, in source order |
| Nutrientes.GENERICO | frontend/src/utils/estimativaNutricional.ts:52 | definition, no contract: the generic 120/5/15/4 profile |
| Nutrientes.BuscarNutrientes | frontend/src/utils/estimativaNutricional.ts:45-53 | every profile returned, from a row or the generic one, is non-negative |
| Nutrientes.BuscarNutrientesPrimeiraLinha | frontend/src/utils/estimativaNutricional.ts:47-51 | the first row with a word in the lower-cased name decides, even when later rows match too |
| Nutrientes.BuscarNutrientesGenerico | frontend/src/utils/estimativaNutricional.ts:52 | a name that matches no row gets 120 kcal, 5 g protein, 15 g carbohydrate, 4 g fat |
| Nutrientes.BuscarNutrientesTotal | frontend/src/utils/estimativaNutricional.ts:45-53 | every name gets the profile of its first matching row, or the generic profile when no row matches |
| Nutrientes.BuscarNutrientesSemCaixa | frontend/src/utils/estimativaNutricional.ts:46 | the lookup ignores case: a name and its lower-case form get the same profile |
| Plano.ItemRefeicao | frontend/src/types.ts:40-44 | definition, no contract: an item with its name, parsed quantity and optional unit |
| Plano.Refeicao | frontend/src/types.ts:46-52 | definition, no contract: a meal with its name, optional time, description, notes and optional items |
| Plano.PlanoAlimentar | frontend/src/types.ts:54-58 | definition, no contract: the plan and its meals in document order |
| Plano.TemItens | frontend/src/utils/estimativaNutricional.ts:82 | definition, no contract: `itens && itens.length > 0` |
| Plano.TemHorario | frontend/src/utils/estimativaNutricional.ts:171 | definition, no contract: `!!horario_sugerido`, present and non-empty |
| Estimativa.ZERO | frontend/src/utils/estimativaNutricional.ts:117-120 | definition, no contract: the four meal sums start at 0 |
| Estimativa.Somar | frontend/src/utils/estimativaNutricional.ts:127-130 | definition, no contract: the four `+=` updates, field by field (used by `Estimativa.SomaItensConcatenada`) |
| Estimativa.MacrosDoItem | frontend/src/utils/estimativaNutricional.ts:124-130 | an item's kcal and macro contributions are never negative |
| Estimativa.SomaItens | frontend/src/utils/estimativaNutricional.ts:122-131 | the item sums are never negative |
| Estimativa.SomaItensConcatenada | frontend/src/utils/estimativaNutricional.ts:123-131 | summing the items of two lists equals summing each list and adding the two sums |
| Estimativa.PORCAO_POR_REFEICAO | frontend/src/utils/estimativaNutricional.ts:90-96 | definition, no contract: the five meal slots and their kcal, in `Object.entries` order |
| Estimativa.KCAL_REFEICAO_PADRAO | frontend/src/utils/estimativaNutricional.ts:104 | definition, no contract: 400 kcal for a meal whose slot is not recognised |
| Estimativa.KcalPorNome | frontend/src/utils/estimativaNutricional.ts:90-104 | the slot fallback is never below 150 kcal |
| Estimativa.KcalPorNomeComoCadeia | frontend/src/utils/estimativaNutricional.ts:90-104 | the slots are tried in `Object.entries` order: café da manhã 380, lanche da manhã 150, almoço 650, lanche da tarde 200, jantar 520, otherwise 400 |
| Estimativa.KcalRefeicao | frontend/src/utils/estimativaNutricional.ts:80-107 | `estimarRefeicao` returns a non-negative integer |
| Estimativa.EstimarRefeicao | frontend/src/utils/estimativaNutricional.ts:80-107 | the item loop and the slot search with `break` compute exactly the rounded item kcal, or the slot fallback when there are no items |
| Estimativa.ParcialRefeicao | frontend/src/utils/estimativaNutricional.ts:122-139 | each meal adds a non-negative rounded kcal and non-negative macros to the day |
| Estimativa.Acumulado | frontend/src/utils/estimativaNutricional.ts:139-143 | the day's running totals are never negative |
| Estimativa.TotaisNutricionais | frontend/src/utils/estimativaNutricional.ts:55-63 | definition, no contract: the day's totals record |
| Estimativa.CaloriasPorRefeicao | frontend/src/utils/estimativaNutricional.ts:65-70 | definition, no contract: one meal's entry |
| Estimativa.ResumoNutricional | frontend/src/utils/estimativaNutricional.ts:72-78 | definition, no contract: the returned summary |
| Estimativa.PercentualMacro | frontend/src/utils/estimativaNutricional.ts:161-163 | definition, no contract: a macro's rounded share of the macro energy, or its default 33/44/23 when that energy is 0 (bounded by `Invariantes.PercentuaisDoResumo`) |
| Estimativa.PercentualDoTotal | frontend/src/utils/estimativaNutricional.ts:166 | definition, no contract: a meal's rounded share of the day's kcal, 0 when the day has none (bounded by `Invariantes.PercentualDoTotalLimitado`) |
| Estimativa.HorariosInformados | frontend/src/utils/estimativaNutricional.ts:169-171 | definition, no contract: the non-empty suggested times in plan order (characterised by `Invariantes.HorariosVazios` and `Invariantes.HorariosConcatenados`) |
| Estimativa.Primeiro | frontend/src/utils/estimativaNutricional.ts:185 | definition, no contract: `horarios[0]` or null |
| Estimativa.Ultimo | frontend/src/utils/estimativaNutricional.ts:186 | definition, no contract: `horarios[horarios.length - 1]` or null |
| Estimativa.EntradaPendente | frontend/src/utils/estimativaNutricional.ts:145-150 | definition, no contract: the entry as pushed, with the meal's name, time, rounded kcal and share 0 |
| Estimativa.Entrada | frontend/src/utils/estimativaNutricional.ts:145-150 | definition, no contract: a finished entry, its share set as at :166 |
| Estimativa.PorRefeicao | frontend/src/utils/estimativaNutricional.ts:145-150 | definition, no contract: the returned `porRefeicao` list, one finished entry per meal in plan order, as pushed at :145-150 and filled at :165-167 (characterised by `Invariantes.UmaEntradaPorRefeicao`) |
| Estimativa.Resumo | frontend/src/utils/estimativaNutricional.ts:109-188 | definition, no contract: the summary `estimarNutricao` returns; its properties are the `Invariantes` lemmas, and `Estimativa.EstimarNutricao` is proved equal to it |
| Estimativa.SomarItens | frontend/src/utils/estimativaNutricional.ts:122-131 | the four running sums over the items equal the item sums |
| Estimativa.EstimarParcial | frontend/src/utils/estimativaNutricional.ts:117-139 | the loop body yields the meal's rounded kcal and macros, including the 25/50/25 split when there are no items |
| Estimativa.PercorrerRefeicoes | frontend/src/utils/estimativaNutricional.ts:110-151 | the meal loop leaves the running totals of all meals and pushes one entry per meal, in order, with share 0 |
| Estimativa.PreencherPercentuais | frontend/src/utils/estimativaNutricional.ts:165-167 | the `forEach` pass sets each entry's share of the day's kcal and changes nothing else |
| Estimativa.EstimarNutricao | frontend/src/utils/estimativaNutricional.ts:109-188 | `estimarNutricao`'s steps yield exactly the summary `Resumo`, about which `Invariantes` proves the promised properties |
| Invariantes.SomaKcalDasEntradas | frontend/src/utils/estimativaNutricional.ts:139-150 | the kcal of the entries add up to the running kcal total, for any share used to fill them |
| Invariantes.TotalKcalEhSomaDasRefeicoes | frontend/src/utils/estimativaNutricional.ts:139-150 | `totalKcal` is the sum of the rounded per-meal kcal listed in `porRefeicao` |
| Invariantes.ParcialConcordaComEstimarRefeicao | frontend/src/utils/estimativaNutricional.ts:132-139 | the kcal the meal loop adds is what `estimarRefeicao` returns, with items or without |
| Invariantes.UmaEntradaPorRefeicao | frontend/src/utils/estimativaNutricional.ts:145-150 | `numRefeicoes` and `porRefeicao` follow the meals one to one and in order; each entry carries the meal's name, time and non-negative `estimarRefeicao` kcal |
| Invariantes.MacrosDaRefeicaoSemItens | frontend/src/utils/estimativaNutricional.ts:133-136 | without items, protein, carbohydrate and fat carry 25/50/25 percent of the kcal, and their 4/4/9 energy gives back the kcal |
| Invariantes.KcalDaRefeicaoAteTotal | frontend/src/utils/estimativaNutricional.ts:140 | no meal's kcal exceeds the day's total |
| Invariantes.PercentuaisArredondados | frontend/src/utils/estimativaNutricional.ts:161-163 | three non-negative shares of a positive whole, each rounded to a percent, are each in [0, 100] and sum to a value in [99, 101] |
| Invariantes.QuocienteEntreZeroEUm | frontend/src/utils/estimativaNutricional.ts:166 | a part of a positive whole, in percent, is between 0 and 100 |
| Invariantes.PercentuaisDoResumo | frontend/src/utils/estimativaNutricional.ts:153-181 | the gram totals are non-negative; with positive macro energy each macro percentage is in [0, 100] and the three sum to [99, 101]; with zero energy they are 33/44/23 |
| Invariantes.PercentualDoTotalLimitado | frontend/src/utils/estimativaNutricional.ts:165-167 | every meal's share of the day is in [0, 100], and 0 for every meal when the day has no kcal |
| Invariantes.HorariosConcatenados | frontend/src/utils/estimativaNutricional.ts:169-171 | filtering the times of two consecutive parts of a plan gives the two filtered lists one after the other |
| Invariantes.HorariosVazios | frontend/src/utils/estimativaNutricional.ts:169-171 | no times survive the filter exactly when no meal has a non-empty time (both directions) |
| Invariantes.HorarioInicioEhOPrimeiro | frontend/src/utils/estimativaNutricional.ts:185 | `horarioInicio` is the time of the first meal in plan order with a non-empty time |
| Invariantes.HorarioFimEhOUltimo | frontend/src/utils/estimativaNutricional.ts:186 | `horarioFim` is the time of the last meal in plan order with a non-empty time |
| Invariantes.SemHorarios | frontend/src/utils/estimativaNutricional.ts:185-186 | both times are null exactly when no meal has a non-empty time, and one is null exactly when the other is |
| ExemplosDeUnidades.DuasFatias | frontend/src/utils/estimativaNutricional.ts:38 | quantity 2 of "fatia" weighs 60 g |
| ExemplosDeUnidades.ZeroViraUm | frontend/src/utils/estimativaNutricional.ts:32 | quantity 0 of "fatia" weighs 30 g, because 0 becomes 1 |
| ExemplosDeUnidades.UmaXicara | frontend/src/utils/estimativaNutricional.ts:39 | quantity 1 of "xícara" weighs 150 g |
| ExemplosDeUnidades.GramaSemQuantidade | frontend/src/utils/estimativaNutricional.ts:32-34 | no quantity, unit "g": 1 g |
| ExemplosDeUnidades.MeioGrama | frontend/src/utils/estimativaNutricional.ts:32 | quantity 0.5, unit "g": clamped to 1 g |
| ExemplosDeUnidades.UmaUnidadeMedia | frontend/src/utils/estimativaNutricional.ts:40 | quantity 1 of "unidade média" weighs 100 g |
| ExemplosDeUnidades.UmaUnidade | frontend/src/utils/estimativaNutricional.ts:40 | quantity 1 of "unidade" weighs 100 g |
| ExemplosDeUnidades.PoteDe170GramasTerminaEmG | frontend/src/utils/estimativaNutricional.ts:34 | quantity 3 of "pote 170g" weighs 3 g, since the unit ends in "g" |
| ExemplosDeUnidades.PoteDe170Fixo | frontend/src/utils/estimativaNutricional.ts:41 | quantity 2 of "pote 170" weighs the fixed 170 g |
| ExemplosDeAlimentos.BananaEhFruta | frontend/src/utils/estimativaNutricional.ts:15 | "Banana" gets the fruit row, 60 kcal per 100 g |
| ExemplosDeAlimentos.PaoIntegralEhPao | frontend/src/utils/estimativaNutricional.ts:11 | "Pão integral" gets the bread row, 265 kcal per 100 g |
| ExemplosDeAlimentos.ArrozIntegralCaiNaLinhaDoPao | frontend/src/utils/estimativaNutricional.ts:11-21 | "Arroz integral" matches "integral" in the bread row first, so it gets 265 kcal, not the rice row's 130 |
| ExemplosDeAlimentos.NomeVazioEhGenerico | frontend/src/utils/estimativaNutricional.ts:52 | an empty name matches no row and gets the generic profile |
| ExemplosDePlanos.MacrosDoPao | frontend/src/utils/estimativaNutricional.ts:124-130 | 2 slices of "Pão integral" contribute 159 kcal, 5.4 g protein, 29.4 g carbohydrate, 1.8 g fat |
| ExemplosDePlanos.MacrosDaBanana | frontend/src/utils/estimativaNutricional.ts:124-130 | 1 "unidade" of "Banana" contributes 60 kcal, 1 g protein, 15 g carbohydrate, 0 g fat |
| ExemplosDePlanos.SomaDeDois | frontend/src/utils/estimativaNutricional.ts:123-131 | two items are added in order, starting from zero |
| ExemplosDePlanos.SomaDoCafe | frontend/src/utils/estimativaNutricional.ts:122-131 | bread plus banana sum to 219 kcal, 6.4 g, 44.4 g, 1.8 g |
| ExemplosDePlanos.ParcialDoCafe | frontend/src/utils/estimativaNutricional.ts:122-139 | that breakfast's `estimarRefeicao` is 219 kcal, and it adds 219 kcal and its unrounded macros to the day |
| ExemplosDePlanos.ResumoDoCafe | frontend/src/utils/estimativaNutricional.ts:109-188 | a plan of that one breakfast: 219 kcal; 6/44/2 g; 11/81/8 percent; one entry with 100 percent; start and end time "07:00" |
| ExemplosDePlanos.CemGramas | frontend/src/utils/estimativaNutricional.ts:32-34 | quantity 100 in unit "g" weighs 100 g |
| ExemplosDePlanos.ItemDesconhecidoDe100Gramas | frontend/src/utils/estimativaNutricional.ts:124-130 | 100 g of any food matching no row contributes exactly 120 kcal, 5 g, 15 g, 4 g |
| ExemplosDePlanos.ItemSemNomeDe100Gramas | frontend/src/utils/estimativaNutricional.ts:52 | so does 100 g of an item with an empty name |
| ExemplosDePlanos.AlmocoEhSlotDoAlmoco | frontend/src/utils/estimativaNutricional.ts:93 | "Almoço" falls in the lunch slot, 650 kcal |
| ExemplosDePlanos.ParcialDoAlmoco | frontend/src/utils/estimativaNutricional.ts:132-137 | a lunch without items is 650 kcal, with 40.625 g protein, 81.25 g carbohydrate and 162.5/9 g fat |
| ExemplosDePlanos.CeiaNaoEhSlot | frontend/src/utils/estimativaNutricional.ts:104 | "Ceia" matches no slot and gets 400 kcal |
| ExemplosDePlanos.ParcialDaCeia | frontend/src/utils/estimativaNutricional.ts:82 | a meal with an empty item list uses the slot fallback: 400 kcal |
| ExemplosDePlanos.ResumoDePlanoVazio | frontend/src/utils/estimativaNutricional.ts:157-186 | an empty plan: zero totals, the 33/44/23 split, no entries, no times |
| ExemplosDePlanos.HorariosNaOrdemDoPlano | frontend/src/utils/estimativaNutricional.ts:169-186 | for [Jantar "19:30", Lanche "", Café "07:00"], the start is "19:30" and the end "07:00": plan order, not sorted, with the empty time skipped |

## Left out

- IEEE double arithmetic: results are exact real numbers, so rounding errors of floating point, `Infinity` and `-0` are not modelled.
- `parseFloat`'s text scanning (its prefix rule, "1,5", exponents): the quantity arrives already parsed, as `Option<real>`.
- `toLowerCase` beyond Latin-1: only A–Z and À–Þ (except ×) are lowered; other scripts and special cases (such as the Turkish dotted I) are left as they are.
- `Texto.MinusculaChar`: does not model Unicode case mapping outside Latin-1, because the estimator's keywords and the plan texts it handles are Portuguese.
- The mutable `porRefeicao` array: it is a `seq` that the methods rebuild. Aliasing of the returned objects is not modelled.
- `estimarRefeicao` (:82) and the outer loop (:122) both test `itens && itens.length > 0`. One predicate, `TemItens`, stands for both, in the functions and in the methods.
- `estimarRefeicao`'s `if (kcal === 0) kcal = 400` follows the slot search. The method models it literally. `KcalPorNome` returns 400 directly, as the slot values are never 0 (`EstimarRefeicao` proves the two agree).
- Fields the estimator never reads: `descricao`, `observacoes`, `resumo_geral` and `avisos_importantes` are carried, unused.
- The rest of the application: the UI components, the PDF export, the network client and the backend (`AnamneseForm`, `DietDashboard`, `gerarPdfPlano`, `api`, the Python services) are not part of this model.
- `ExemplosDeAlimentos.NomeVazioEhGenerico`: the generic profile is shown concretely only for the empty name. `ExemplosDePlanos.ItemDesconhecidoDe100Gramas` states the 100 g contribution for every name that matches no row, rather than for one particular unknown name.
