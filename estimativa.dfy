/**
 * `estimarRefeicao` and `estimarNutricao`: per-meal and whole-plan calorie and
 * macronutrient estimates. The functions below say what the two procedures
 * compute; the two methods compute it the way the source does, with loops and
 * running totals, and are proved to agree with the functions.
 */
module Estimativa {
  import opened Wrappers
  import opened Numeros
  import opened Texto
  import opened Regras
  import opened Conversao
  import opened Nutrientes
  import opened Plano

  /** Unrounded sums of energy (kcal) and macronutrients (g). */
  datatype Macros = Macros(kcal: real, protein: real, carb: real, fat: real)

  const ZERO: Macros := Macros(0.0, 0.0, 0.0, 0.0)

  predicate MacrosNaoNegativos(m: Macros) {
    m.kcal >= 0.0 && m.protein >= 0.0 && m.carb >= 0.0 && m.fat >= 0.0
  }

  function Somar(a: Macros, b: Macros): Macros {
    Macros(a.kcal + b.kcal, a.protein + b.protein, a.carb + b.carb, a.fat + b.fat)
  }

  /** One item's share: its table profile scaled by its grams over 100. */
  function MacrosDoItem(item: ItemRefeicao): (m: Macros)
    ensures MacrosNaoNegativos(m)
  {
    var f := GramasAproximados(item.quantidade, item.unidade) / 100.0;
    var p := BuscarNutrientes(item.nome);
    Macros(f * p.kcal, f * p.protein, f * p.carb, f * p.fat)
  }

  /** The items' shares added up in document order. */
  function SomaItens(itens: seq<ItemRefeicao>): (m: Macros)
    ensures MacrosNaoNegativos(m)
  {
    if itens == [] then ZERO
    else Somar(SomaItens(itens[..|itens| - 1]), MacrosDoItem(itens[|itens| - 1]))
  }

  /** Adding up the items of two lists is adding up each list and then the two sums. */
  lemma {:induction false} SomaItensConcatenada(a: seq<ItemRefeicao>, b: seq<ItemRefeicao>)
    ensures SomaItens(a + b) == Somar(SomaItens(a), SomaItens(b))
  {
    if b == [] {
      assert a + b == a;
    } else {
      var resto, ultimo := b[..|b| - 1], b[|b| - 1];
      assert (a + b)[..|a + b| - 1] == a + resto;
      assert (a + b)[|a + b| - 1] == ultimo;
      SomaItensConcatenada(a, resto);
      var sa, sr, mu := SomaItens(a), SomaItens(resto), MacrosDoItem(ultimo);
      assert SomaItens(a + b) == Somar(Somar(sa, sr), mu);
      assert SomaItens(b) == Somar(sr, mu);
    }
  }

  /** Default kcal by meal slot, in the order `Object.entries` yields them. */
  const PORCAO_POR_REFEICAO: seq<Regra<int>> := [
    Regra(Inclui("café da manhã"), 380),
    Regra(Inclui("lanche da manhã"), 150),
    Regra(Inclui("almoço"), 650),
    Regra(Inclui("lanche da tarde"), 200),
    Regra(Inclui("jantar"), 520)
  ]

  /** The kcal of a meal whose slot is not recognised. */
  const KCAL_REFEICAO_PADRAO: int := 400

  /** The fallback kcal of a meal without items: the first slot whose name occurs in the lower-cased meal name. */
  function KcalPorNome(nome: string): (k: int)
    ensures k >= 150
  {
    PrimeiraRegraEntreValores(PORCAO_POR_REFEICAO, Minuscula(nome), KCAL_REFEICAO_PADRAO);
    assert forall i :: 0 <= i < |PORCAO_POR_REFEICAO| ==> PORCAO_POR_REFEICAO[i].valor >= 150;
    PrimeiraRegra(PORCAO_POR_REFEICAO, Minuscula(nome), KCAL_REFEICAO_PADRAO)
  }

  /** The slot search unrolled: the source's ordered `includes` tests, 400 when none succeeds. */
  lemma KcalPorNomeComoCadeia(nome: string)
    ensures var n := Minuscula(nome);
            KcalPorNome(nome) ==
              if Contem(n, "café da manhã") then 380
              else if Contem(n, "lanche da manhã") then 150
              else if Contem(n, "almoço") then 650
              else if Contem(n, "lanche da tarde") then 200
              else if Contem(n, "jantar") then 520
              else 400
  {
    var n := Minuscula(nome);
    var r := PORCAO_POR_REFEICAO;
    assert r[0..] == r;
    assert r[5..] == [];
    PrimeiraRegraDesde(r, n, KCAL_REFEICAO_PADRAO, 0);
    PrimeiraRegraDesde(r, n, KCAL_REFEICAO_PADRAO, 1);
    PrimeiraRegraDesde(r, n, KCAL_REFEICAO_PADRAO, 2);
    PrimeiraRegraDesde(r, n, KCAL_REFEICAO_PADRAO, 3);
    PrimeiraRegraDesde(r, n, KCAL_REFEICAO_PADRAO, 4);
  }

  /** What `estimarRefeicao` returns: the rounded kcal of the items, or of the slot fallback when there are none. */
  function KcalRefeicao(r: Refeicao): (k: int)
    ensures k >= 0
  {
    var kcal := if TemItens(r) then SomaItens(r.itens.value).kcal else KcalPorNome(r.nome) as real;
    RoundNaoNegativo(kcal);
    Round(kcal)
  }

  /** `estimarRefeicao`: accumulates the items' kcal, or searches the slot table and breaks at the first hit. */
  method EstimarRefeicao(refeicao: Refeicao) returns (kcal: int)
    ensures kcal == KcalRefeicao(refeicao)
  {
    var soma: real := 0.0;
    if TemItens(refeicao) {
      var itens := refeicao.itens.value;
      for i := 0 to |itens|
        invariant soma == SomaItens(itens[..i]).kcal
      {
        soma := soma + MacrosDoItem(itens[i]).kcal;
        assert itens[..i + 1][..i] == itens[..i];
      }
      assert itens[..|itens|] == itens;
    } else {
      var nome := Minuscula(refeicao.nome);
      var i := 0;
      while i < |PORCAO_POR_REFEICAO|
        invariant 0 <= i <= |PORCAO_POR_REFEICAO|
        invariant soma == 0.0
        invariant forall j :: 0 <= j < i ==> !Casa(PORCAO_POR_REFEICAO[j].padrao, nome)
      {
        if Casa(PORCAO_POR_REFEICAO[i].padrao, nome) {
          soma := PORCAO_POR_REFEICAO[i].valor as real;
          PrimeiraRegraCasa(PORCAO_POR_REFEICAO, nome, KCAL_REFEICAO_PADRAO, i);
          break;
        }
        i := i + 1;
      }
      if i == |PORCAO_POR_REFEICAO| {
        PrimeiraRegraNenhuma(PORCAO_POR_REFEICAO, nome, KCAL_REFEICAO_PADRAO);
      }
      if soma == 0.0 {
        soma := 400.0;
      }
    }
    kcal := Round(soma);
  }

  /** What one meal adds to the day: its rounded kcal and unrounded macros. */
  datatype Parcial = Parcial(kcal: int, protein: real, carb: real, fat: real)

  predicate ParcialNaoNegativo(p: Parcial) {
    p.kcal >= 0 && p.protein >= 0.0 && p.carb >= 0.0 && p.fat >= 0.0
  }

  /**
   * One pass of `estimarNutricao`'s outer loop: with items, the weighted sums of
   * the items; without, `estimarRefeicao`'s kcal split 25/50/25 into protein,
   * carbohydrate and fat at 4, 4 and 9 kcal per gram.
   */
  function ParcialRefeicao(r: Refeicao): (p: Parcial)
    ensures ParcialNaoNegativo(p)
  {
    if TemItens(r) then
      var m := SomaItens(r.itens.value);
      RoundNaoNegativo(m.kcal);
      Parcial(Round(m.kcal), m.protein, m.carb, m.fat)
    else
      var k := KcalRefeicao(r) as real;
      RoundNaoNegativo(k);
      Parcial(Round(k), (k * 0.25) / 4.0, (k * 0.5) / 4.0, (k * 0.25) / 9.0)
  }

  /** The running totals after the given meals: rounded kcal added up, macros added up unrounded. */
  function Acumulado(refs: seq<Refeicao>): (t: Parcial)
    ensures ParcialNaoNegativo(t)
  {
    if refs == [] then Parcial(0, 0.0, 0.0, 0.0)
    else
      var a := Acumulado(refs[..|refs| - 1]);
      var p := ParcialRefeicao(refs[|refs| - 1]);
      Parcial(a.kcal + p.kcal, a.protein + p.protein, a.carb + p.carb, a.fat + p.fat)
  }

  datatype TotaisNutricionais = TotaisNutricionais(
    totalKcal: int, protein: int, carb: int, fat: int,
    proteinPct: int, carbPct: int, fatPct: int)

  datatype CaloriasPorRefeicao = CaloriasPorRefeicao(
    nome: string, horarioSugerido: Option<string>, kcal: int, percentualDoTotal: int)

  datatype ResumoNutricional = ResumoNutricional(
    totais: TotaisNutricionais,
    porRefeicao: seq<CaloriasPorRefeicao>,
    numRefeicoes: nat,
    horarioInicio: Option<string>,
    horarioFim: Option<string>)

  /** A macro's share of the macro energy, in percent and rounded; `padrao` when that energy is zero. */
  function PercentualMacro(parte: int, total: int, padrao: int): int {
    Round(if total > 0 then (parte as real / total as real) * 100.0 else padrao as real)
  }

  /** A meal's share of the day's kcal, in percent and rounded; 0 when the day has no kcal. */
  function PercentualDoTotal(kcal: int, total: int): int {
    if total > 0 then Round((kcal as real / total as real) * 100.0) else 0
  }

  /** The non-empty suggested times, in document order. */
  function HorariosInformados(refs: seq<Refeicao>): seq<string> {
    if refs == [] then []
    else (if TemHorario(refs[0]) then [refs[0].horarioSugerido.value] else []) + HorariosInformados(refs[1..])
  }

  function Primeiro(s: seq<string>): Option<string> {
    if |s| > 0 then Some(s[0]) else None
  }

  function Ultimo(s: seq<string>): Option<string> {
    if |s| > 0 then Some(s[|s| - 1]) else None
  }

  /** A meal's entry of `porRefeicao` as the first pass pushes it, its share still 0. */
  function EntradaPendente(r: Refeicao): CaloriasPorRefeicao {
    CaloriasPorRefeicao(r.nome, r.horarioSugerido, ParcialRefeicao(r).kcal, 0)
  }

  /** A meal's entry of `porRefeicao`, once the day's total is known. */
  function Entrada(r: Refeicao, totalKcal: int): CaloriasPorRefeicao {
    var k := ParcialRefeicao(r).kcal;
    CaloriasPorRefeicao(r.nome, r.horarioSugerido, k, PercentualDoTotal(k, totalKcal))
  }

  /** The `porRefeicao` list: one entry per meal, in plan order. */
  function PorRefeicao(refs: seq<Refeicao>, totalKcal: int): seq<CaloriasPorRefeicao> {
    seq(|refs|, i requires 0 <= i < |refs| => Entrada(refs[i], totalKcal))
  }

  /** What `estimarNutricao` returns for a plan. */
  function Resumo(plano: PlanoAlimentar): ResumoNutricional {
    var refs := plano.refeicoes;
    var t := Acumulado(refs);
    var p := Round(t.protein);
    var c := Round(t.carb);
    var f := Round(t.fat);
    var energia := p * 4 + c * 4 + f * 9;
    var horarios := HorariosInformados(refs);
    ResumoNutricional(
      TotaisNutricionais(t.kcal, p, c, f,
        PercentualMacro(p * 4, energia, 33),
        PercentualMacro(c * 4, energia, 44),
        PercentualMacro(f * 9, energia, 23)),
      PorRefeicao(refs, t.kcal),
      |refs|,
      Primeiro(horarios),
      Ultimo(horarios))
  }

  /** The item loop of `estimarNutricao`: each item's grams over 100 times its profile, added to four running sums. */
  method SomarItens(itens: seq<ItemRefeicao>) returns (kcalRef: real, proteinRef: real, carbRef: real, fatRef: real)
    ensures Macros(kcalRef, proteinRef, carbRef, fatRef) == SomaItens(itens)
  {
    kcalRef, proteinRef, carbRef, fatRef := 0.0, 0.0, 0.0, 0.0;
    for k := 0 to |itens|
      invariant Macros(kcalRef, proteinRef, carbRef, fatRef) == SomaItens(itens[..k])
    {
      var m := MacrosDoItem(itens[k]);
      kcalRef := kcalRef + m.kcal;
      proteinRef := proteinRef + m.protein;
      carbRef := carbRef + m.carb;
      fatRef := fatRef + m.fat;
      assert itens[..k + 1][..k] == itens[..k];
    }
    assert itens[..|itens|] == itens;
  }

  /** The `forEach` pass of `estimarNutricao`: fills in each entry's share of the day's kcal. */
  method PreencherPercentuais(porRefeicao: seq<CaloriasPorRefeicao>, totalKcal: int) returns (r: seq<CaloriasPorRefeicao>)
    ensures |r| == |porRefeicao|
    ensures forall j :: 0 <= j < |r| ==>
      r[j] == porRefeicao[j].(percentualDoTotal := PercentualDoTotal(porRefeicao[j].kcal, totalKcal))
  {
    r := porRefeicao;
    for i := 0 to |r|
      invariant |r| == |porRefeicao|
      invariant forall j :: 0 <= j < i ==>
        r[j] == porRefeicao[j].(percentualDoTotal := PercentualDoTotal(porRefeicao[j].kcal, totalKcal))
      invariant forall j :: i <= j < |r| ==> r[j] == porRefeicao[j]
    {
      r := r[i := r[i].(percentualDoTotal := PercentualDoTotal(r[i].kcal, totalKcal))];
    }
  }

  /** The body of `estimarNutricao`'s meal loop: the meal's kcal, rounded, and its unrounded macros. */
  method EstimarParcial(ref: Refeicao) returns (kcalRef: int, proteinRef: real, carbRef: real, fatRef: real)
    ensures Parcial(kcalRef, proteinRef, carbRef, fatRef) == ParcialRefeicao(ref)
  {
    var kcal: real;
    if TemItens(ref) {
      kcal, proteinRef, carbRef, fatRef := SomarItens(ref.itens.value);
    } else {
      var kcalInt := EstimarRefeicao(ref);
      kcal := kcalInt as real;
      proteinRef := (kcal * 0.25) / 4.0;
      carbRef := (kcal * 0.5) / 4.0;
      fatRef := (kcal * 0.25) / 9.0;
    }
    kcalRef := Round(kcal);
  }

  /** The meal loop of `estimarNutricao`: running totals, and one pushed entry per meal with its share still 0. */
  method PercorrerRefeicoes(refs: seq<Refeicao>)
    returns (porRefeicao: seq<CaloriasPorRefeicao>, totalKcal: int, totalProtein: real, totalCarb: real, totalFat: real)
    ensures Parcial(totalKcal, totalProtein, totalCarb, totalFat) == Acumulado(refs)
    ensures |porRefeicao| == |refs|
    ensures forall j :: 0 <= j < |refs| ==> porRefeicao[j] == EntradaPendente(refs[j])
  {
    porRefeicao := [];
    totalKcal, totalProtein, totalCarb, totalFat := 0, 0.0, 0.0, 0.0;
    for i := 0 to |refs|
      invariant Parcial(totalKcal, totalProtein, totalCarb, totalFat) == Acumulado(refs[..i])
      invariant |porRefeicao| == i
      invariant forall j :: 0 <= j < i ==> porRefeicao[j] == EntradaPendente(refs[j])
    {
      var ref := refs[i];
      var kcalRef, proteinRef, carbRef, fatRef := EstimarParcial(ref);
      totalKcal := totalKcal + kcalRef;
      totalProtein := totalProtein + proteinRef;
      totalCarb := totalCarb + carbRef;
      totalFat := totalFat + fatRef;
      assert refs[..i + 1][..i] == refs[..i];
      porRefeicao := porRefeicao + [CaloriasPorRefeicao(ref.nome, ref.horarioSugerido, kcalRef, 0)];
    }
    assert refs[..|refs|] == refs;
  }

  /** `estimarNutricao`: the meal loop, the rounded gram totals and macro shares, the `forEach` pass, the first and last times. */
  method EstimarNutricao(plano: PlanoAlimentar) returns (r: ResumoNutricional)
    ensures r == Resumo(plano)
  {
    var refs := plano.refeicoes;
    var porRefeicao, totalKcal, totalProtein, totalCarb, totalFat := PercorrerRefeicoes(refs);

    var proteinG := Round(totalProtein);
    var carbG := Round(totalCarb);
    var fatG := Round(totalFat);
    var kcalFromP := proteinG * 4;
    var kcalFromC := carbG * 4;
    var kcalFromF := fatG * 9;
    var totalKcalFromMacros := kcalFromP + kcalFromC + kcalFromF;

    porRefeicao := PreencherPercentuais(porRefeicao, totalKcal);

    var horarios := HorariosInformados(refs);
    r := ResumoNutricional(
      TotaisNutricionais(totalKcal, proteinG, carbG, fatG,
        PercentualMacro(kcalFromP, totalKcalFromMacros, 33),
        PercentualMacro(kcalFromC, totalKcalFromMacros, 44),
        PercentualMacro(kcalFromF, totalKcalFromMacros, 23)),
      porRefeicao,
      |refs|,
      Primeiro(horarios),
      Ultimo(horarios));
  }
}
