/** What `estimarNutricao` promises about its summary, proved of `Resumo`. */
module Invariantes {
  import opened Wrappers
  import opened Numeros
  import opened Plano
  import opened Estimativa

  /** The kcal of the entries, added up in order. */
  function SomaKcal(entradas: seq<CaloriasPorRefeicao>): int {
    if entradas == [] then 0 else SomaKcal(entradas[..|entradas| - 1]) + entradas[|entradas| - 1].kcal
  }

  lemma {:induction false} SomaKcalDasEntradas(refs: seq<Refeicao>, totalKcal: int)
    ensures SomaKcal(PorRefeicao(refs, totalKcal)) == Acumulado(refs).kcal
  {
    if refs != [] {
      var n := |refs|;
      assert PorRefeicao(refs, totalKcal)[..n - 1] == PorRefeicao(refs[..n - 1], totalKcal);
      SomaKcalDasEntradas(refs[..n - 1], totalKcal);
    }
  }

  /** `totalKcal` is the sum of the per-meal kcal the summary lists, each already rounded. */
  lemma TotalKcalEhSomaDasRefeicoes(plano: PlanoAlimentar)
    ensures Resumo(plano).totais.totalKcal == SomaKcal(Resumo(plano).porRefeicao)
  {
    SomaKcalDasEntradas(plano.refeicoes, Acumulado(plano.refeicoes).kcal);
  }

  /** The meal loop's rounded kcal is what `estimarRefeicao` returns, with items or without. */
  lemma ParcialConcordaComEstimarRefeicao(r: Refeicao)
    ensures ParcialRefeicao(r).kcal == KcalRefeicao(r)
  {
    if !TemItens(r) {
      RoundInteiro(KcalRefeicao(r));
    }
  }

  /** `porRefeicao` follows the meals one to one and in order, copying name and time; each kcal is `estimarRefeicao`'s, a non-negative integer. */
  lemma UmaEntradaPorRefeicao(plano: PlanoAlimentar)
    ensures var s := Resumo(plano);
            var refs := plano.refeicoes;
            s.numRefeicoes == |refs| && |s.porRefeicao| == |refs| &&
            forall i :: 0 <= i < |refs| ==>
              s.porRefeicao[i].nome == refs[i].nome &&
              s.porRefeicao[i].horarioSugerido == refs[i].horarioSugerido &&
              s.porRefeicao[i].kcal == KcalRefeicao(refs[i]) &&
              s.porRefeicao[i].kcal >= 0
  {
    var refs := plano.refeicoes;
    forall i | 0 <= i < |refs| ensures ParcialRefeicao(refs[i]).kcal == KcalRefeicao(refs[i]) {
      ParcialConcordaComEstimarRefeicao(refs[i]);
    }
  }

  /** Without items, the kcal is split 25/50/25 at 4/4/9 kcal per gram, so the macros give back exactly that kcal. */
  lemma MacrosDaRefeicaoSemItens(r: Refeicao)
    requires !TemItens(r)
    ensures var k := KcalRefeicao(r) as real;
            var p := ParcialRefeicao(r);
            p.protein * 4.0 == k * 0.25 && p.carb * 4.0 == k * 0.5 && p.fat * 9.0 == k * 0.25 &&
            p.protein * 4.0 + p.carb * 4.0 + p.fat * 9.0 == k
  {
  }

  /** No meal's kcal exceeds the day's total. */
  lemma {:induction false} KcalDaRefeicaoAteTotal(refs: seq<Refeicao>, i: int)
    requires 0 <= i < |refs|
    ensures ParcialRefeicao(refs[i]).kcal <= Acumulado(refs).kcal
  {
    var n := |refs|;
    if i < n - 1 {
      assert refs[..n - 1][i] == refs[i];
      KcalDaRefeicaoAteTotal(refs[..n - 1], i);
    }
  }

  /** Three shares of a positive whole, each rounded to a percent: each in [0, 100], together in [99, 101]. */
  lemma PercentuaisArredondados(a: int, b: int, c: int)
    requires a >= 0 && b >= 0 && c >= 0 && a + b + c > 0
    ensures var t := a + b + c;
            var pa := PercentualMacro(a, t, 33);
            var pb := PercentualMacro(b, t, 44);
            var pc := PercentualMacro(c, t, 23);
            0 <= pa <= 100 && 0 <= pb <= 100 && 0 <= pc <= 100 && 99 <= pa + pb + pc <= 101
  {
    var t := a + b + c;
    var xa := (a as real / t as real) * 100.0;
    var xb := (b as real / t as real) * 100.0;
    var xc := (c as real / t as real) * 100.0;
    QuocienteEntreZeroEUm(a, t);
    QuocienteEntreZeroEUm(b, t);
    QuocienteEntreZeroEUm(c, t);
    assert xa + xb + xc == 100.0 by {
      assert a as real / t as real + b as real / t as real + c as real / t as real == (a + b + c) as real / t as real;
    }
  }

  lemma QuocienteEntreZeroEUm(a: int, t: int)
    requires 0 <= a <= t && t > 0
    ensures 0.0 <= (a as real / t as real) * 100.0 <= 100.0
  {
    assert a as real / t as real <= 1.0;
  }

  /** The macro percentages: bounded shares of the macro energy when it is positive, 33/44/23 when it is zero. */
  lemma PercentuaisDoResumo(plano: PlanoAlimentar)
    ensures var tt := Resumo(plano).totais;
            var energia := tt.protein * 4 + tt.carb * 4 + tt.fat * 9;
            tt.protein >= 0 && tt.carb >= 0 && tt.fat >= 0 &&
            (energia > 0 ==>
              0 <= tt.proteinPct <= 100 && 0 <= tt.carbPct <= 100 && 0 <= tt.fatPct <= 100 &&
              99 <= tt.proteinPct + tt.carbPct + tt.fatPct <= 101) &&
            (energia == 0 ==> tt.proteinPct == 33 && tt.carbPct == 44 && tt.fatPct == 23)
  {
    var t := Acumulado(plano.refeicoes);
    RoundNaoNegativo(t.protein);
    RoundNaoNegativo(t.carb);
    RoundNaoNegativo(t.fat);
    var p, c, f := Round(t.protein), Round(t.carb), Round(t.fat);
    if p * 4 + c * 4 + f * 9 > 0 {
      PercentuaisArredondados(p * 4, c * 4, f * 9);
    } else {
      RoundInteiro(33);
      RoundInteiro(44);
      RoundInteiro(23);
    }
  }

  /** Each meal's share of the day is a percent in [0, 100], and 0 for every meal when the day has no kcal. */
  lemma PercentualDoTotalLimitado(plano: PlanoAlimentar)
    ensures var s := Resumo(plano);
            forall i :: 0 <= i < |s.porRefeicao| ==>
              0 <= s.porRefeicao[i].percentualDoTotal <= 100 &&
              (s.totais.totalKcal == 0 ==> s.porRefeicao[i].percentualDoTotal == 0)
  {
    var refs := plano.refeicoes;
    var total := Acumulado(refs).kcal;
    forall i | 0 <= i < |refs|
      ensures 0 <= PercentualDoTotal(ParcialRefeicao(refs[i]).kcal, total) <= 100
    {
      KcalDaRefeicaoAteTotal(refs, i);
      if total > 0 {
        QuocienteEntreZeroEUm(ParcialRefeicao(refs[i]).kcal, total);
      }
    }
  }

  /** Splitting the plan splits the list of times. */
  lemma {:induction false} HorariosConcatenados(a: seq<Refeicao>, b: seq<Refeicao>)
    ensures HorariosInformados(a + b) == HorariosInformados(a) + HorariosInformados(b)
  {
    if a == [] {
      assert a + b == b;
    } else {
      assert (a + b)[1..] == a[1..] + b;
      HorariosConcatenados(a[1..], b);
    }
  }

  /** There are no times exactly when no meal has a non-empty time. */
  lemma {:induction false} HorariosVazios(refs: seq<Refeicao>)
    ensures HorariosInformados(refs) == [] <==> forall j :: 0 <= j < |refs| ==> !TemHorario(refs[j])
  {
    if refs != [] {
      HorariosVazios(refs[1..]);
      if forall j :: 0 <= j < |refs| - 1 ==> !TemHorario(refs[1..][j]) {
        forall j | 0 <= j < |refs| ensures TemHorario(refs[j]) ==> j == 0 {
          if j > 0 { assert refs[j] == refs[1..][j - 1]; }
        }
      }
    }
  }

  /** `horarioInicio` is the time of the first meal, in plan order, that has one. */
  lemma HorarioInicioEhOPrimeiro(plano: PlanoAlimentar, i: int)
    requires 0 <= i < |plano.refeicoes| && TemHorario(plano.refeicoes[i])
    requires forall j :: 0 <= j < i ==> !TemHorario(plano.refeicoes[j])
    ensures Resumo(plano).horarioInicio == Some(plano.refeicoes[i].horarioSugerido.value)
  {
    var refs := plano.refeicoes;
    assert refs == refs[..i] + refs[i..];
    HorariosConcatenados(refs[..i], refs[i..]);
    HorariosVazios(refs[..i]);
  }

  /** `horarioFim` is the time of the last meal, in plan order, that has one. */
  lemma HorarioFimEhOUltimo(plano: PlanoAlimentar, i: int)
    requires 0 <= i < |plano.refeicoes| && TemHorario(plano.refeicoes[i])
    requires forall j :: i < j < |plano.refeicoes| ==> !TemHorario(plano.refeicoes[j])
    ensures Resumo(plano).horarioFim == Some(plano.refeicoes[i].horarioSugerido.value)
  {
    var refs := plano.refeicoes;
    assert refs == refs[..i + 1] + refs[i + 1..];
    HorariosConcatenados(refs[..i + 1], refs[i + 1..]);
    assert refs[..i + 1] == refs[..i] + [refs[i]];
    HorariosConcatenados(refs[..i], [refs[i]]);
    HorariosVazios(refs[i + 1..]);
  }

  /** Both times are null exactly when no meal has a non-empty time. */
  lemma SemHorarios(plano: PlanoAlimentar)
    ensures var s := Resumo(plano);
            (s.horarioInicio == None <==> forall j :: 0 <= j < |plano.refeicoes| ==> !TemHorario(plano.refeicoes[j])) &&
            (s.horarioFim == None <==> s.horarioInicio == None)
  {
    HorariosVazios(plano.refeicoes);
  }
}
