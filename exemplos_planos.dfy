/** Concrete meals and plans worked through `estimarRefeicao` and `estimarNutricao`. */
module ExemplosDePlanos {
  import opened Wrappers
  import opened Numeros
  import opened Texto
  import opened Plano
  import opened Estimativa
  import opened Invariantes
  import opened ExemplosDeUnidades
  import opened Conversao
  import opened Regras
  import opened Nutrientes
  import opened ExemplosDeAlimentos

  const PAO: ItemRefeicao := ItemRefeicao("Pão integral", Some(2.0), Some("fatia"))
  const BANANA: ItemRefeicao := ItemRefeicao("Banana", Some(1.0), Some("unidade"))
  const CAFE: Refeicao := Refeicao("Café da manhã", Some("07:00"), "", None, Some([PAO, BANANA]))

  lemma GramasEPerfilDoPao(item: ItemRefeicao)
    requires item == PAO
    ensures GramasAproximados(item.quantidade, item.unidade) == 60.0
    ensures BuscarNutrientes(item.nome) == Perfil(265.0, 9.0, 49.0, 3.0)
  {
    DuasFatias();
    PaoIntegralEhPao();
  }

  /** Two slices of wholemeal bread: 60 g at 265 kcal per 100 g. */
  lemma MacrosDoPao(item: ItemRefeicao)
    requires item == PAO
    ensures MacrosDoItem(item) == Macros(159.0, 5.4, 29.4, 1.8)
  {
    GramasEPerfilDoPao(item);
  }

  lemma GramasEPerfilDaBanana(item: ItemRefeicao)
    requires item == BANANA
    ensures GramasAproximados(item.quantidade, item.unidade) == 100.0
    ensures BuscarNutrientes(item.nome) == Perfil(60.0, 1.0, 15.0, 0.0)
  {
    UmaUnidade();
    BananaEhFruta();
  }

  /** One banana: 100 g at 60 kcal per 100 g. */
  lemma MacrosDaBanana(item: ItemRefeicao)
    requires item == BANANA
    ensures MacrosDoItem(item) == Macros(60.0, 1.0, 15.0, 0.0)
  {
    GramasEPerfilDaBanana(item);
  }

  lemma SomaDeDois(a: ItemRefeicao, b: ItemRefeicao)
    ensures SomaItens([a, b]) == Somar(Somar(ZERO, MacrosDoItem(a)), MacrosDoItem(b))
  {
    assert [a][..0] == [];
    assert SomaItens([a]) == Somar(ZERO, MacrosDoItem(a));
    assert [a, b][..1] == [a];
  }

  lemma SomaDoCafe(itens: seq<ItemRefeicao>)
    requires itens == [PAO, BANANA]
    ensures SomaItens(itens) == Macros(219.0, 6.4, 44.4, 1.8)
  {
    MacrosDoPao(itens[0]);
    MacrosDaBanana(itens[1]);
    SomaDeDois(itens[0], itens[1]);
  }

  /** The breakfast with bread and banana is 219 kcal, from its items. */
  lemma ParcialDoCafe()
    ensures KcalRefeicao(CAFE) == 219
    ensures ParcialRefeicao(CAFE) == Parcial(219, 6.4, 44.4, 1.8)
  {
    SomaDoCafe(CAFE.itens.value);
    RoundInteiro(219);
  }

  lemma AcumuladoDoCafe(refs: seq<Refeicao>)
    requires refs == [CAFE]
    ensures Acumulado(refs) == Parcial(219, 6.4, 44.4, 1.8)
  {
    ParcialDoCafe();
    assert refs[..0] == [];
  }

  lemma ArredondamentosDoCafe()
    ensures Round(6.4) == 6 && Round(44.4) == 44 && Round(1.8) == 2
    ensures PercentualMacro(24, 218, 33) == 11 && PercentualMacro(176, 218, 44) == 81 && PercentualMacro(18, 218, 23) == 8
    ensures PercentualDoTotal(219, 219) == 100
  {
    RoundInteiro(100);
  }

  lemma HorariosDoCafe(refs: seq<Refeicao>)
    requires refs == [CAFE]
    ensures HorariosInformados(refs) == ["07:00"]
  {
    assert refs[1..] == [];
  }

  /**
   * A plan of that one breakfast: 219 kcal, 6/44/2 g after rounding, 218 kcal of
   * macro energy split 11/81/8 percent, and the breakfast holding 100% of the day.
   */
  lemma ResumoDoCafe(plano: PlanoAlimentar)
    requires plano == PlanoAlimentar("", [CAFE], [])
    ensures Resumo(plano) ==
              ResumoNutricional(
                TotaisNutricionais(219, 6, 44, 2, 11, 81, 8),
                [CaloriasPorRefeicao("Café da manhã", Some("07:00"), 219, 100)],
                1, Some("07:00"), Some("07:00"))
  {
    AcumuladoDoCafe(plano.refeicoes);
    ArredondamentosDoCafe();
    HorariosDoCafe(plano.refeicoes);
    ParcialDoCafe();
  }

  /** 100 in grams weighs 100 g. */
  lemma CemGramas(quantidade: Option<real>, unidade: Option<string>)
    requires quantidade == Some(100.0) && unidade == Some("g")
    ensures GramasAproximados(quantidade, unidade) == 100.0
  {
    TerminaEmGramas(quantidade, unidade.value);
  }

  /** Any item whose name matches no row, weighed as 100 g, contributes exactly the generic profile. */
  lemma ItemDesconhecidoDe100Gramas(item: ItemRefeicao)
    requires forall j :: 0 <= j < |TABELA_ESTIMATIVA| ==> !Casa(TABELA_ESTIMATIVA[j].padrao, Minuscula(item.nome))
    requires item.quantidade == Some(100.0) && item.unidade == Some("g")
    ensures MacrosDoItem(item) == Macros(120.0, 5.0, 15.0, 4.0)
  {
    BuscarNutrientesGenerico(item.nome);
    CemGramas(item.quantidade, item.unidade);
  }

  /** For instance an item with an empty name. */
  lemma ItemSemNomeDe100Gramas(item: ItemRefeicao)
    requires item == ItemRefeicao("", Some(100.0), Some("g"))
    ensures MacrosDoItem(item) == Macros(120.0, 5.0, 15.0, 4.0)
  {
    NomeVazioEhGenerico();
    CemGramas(item.quantidade, item.unidade);
  }

  const ALMOCO: Refeicao := Refeicao("Almoço", None, "", None, None)
  const CEIA: Refeicao := Refeicao("Ceia", None, "", None, Some([]))

  lemma AlmocoEmMinusculas()
    ensures Minuscula("Almoço") == "almoço"
  {
    MinusculaCapitalizada('A', "lmoço");
    assert "Almoço" == ['A'] + "lmoço";
  }

  lemma AlmocoNaoEhCafeNemLanche(n: string)
    requires n == "almoço"
    ensures !Contem(n, "café da manhã") && !Contem(n, "lanche da manhã") && Contem(n, "almoço")
  {
    NaoContemCaractere(n, "café da manhã", 0);
    NaoContemCaractere(n, "lanche da manhã", 2);
  }

  lemma AlmocoEhSlotDoAlmoco()
    ensures KcalPorNome("Almoço") == 650
  {
    AlmocoEmMinusculas();
    AlmocoNaoEhCafeNemLanche("almoço");
    KcalPorNomeComoCadeia("Almoço");
  }

  /** A lunch without items is the lunch default, 650 kcal, split 25/50/25 into the macros. */
  lemma ParcialDoAlmoco()
    ensures KcalRefeicao(ALMOCO) == 650
    ensures ParcialRefeicao(ALMOCO) == Parcial(650, 40.625, 81.25, 162.5 / 9.0)
  {
    AlmocoEhSlotDoAlmoco();
    RoundInteiro(650);
  }

  lemma CeiaNaoEhSlot()
    ensures KcalPorNome("Ceia") == 400
  {
    MinusculaCapitalizada('C', "eia");
    assert "Ceia" == ['C'] + "eia";
    KcalPorNomeComoCadeia("Ceia");
    NaoContemCaractere("ceia", "café da manhã", 2);
    NaoContemCaractere("ceia", "lanche da manhã", 0);
    NaoContemCaractere("ceia", "almoço", 1);
    NaoContemCaractere("ceia", "lanche da tarde", 0);
    NaoContemCaractere("ceia", "jantar", 0);
  }

  /** An empty item list counts as no items; a meal name with no known slot is 400 kcal. */
  lemma ParcialDaCeia()
    ensures KcalRefeicao(CEIA) == 400
  {
    CeiaNaoEhSlot();
    RoundInteiro(400);
  }

  /** An empty plan: zero totals, the 33/44/23 default split and no times. */
  lemma ResumoDePlanoVazio()
    ensures Resumo(PlanoAlimentar("", [], [])) ==
              ResumoNutricional(TotaisNutricionais(0, 0, 0, 0, 33, 44, 23), [], 0, None, None)
  {
    RoundInteiro(0);
    RoundInteiro(33);
    RoundInteiro(44);
    RoundInteiro(23);
  }

  const JANTAR: Refeicao := Refeicao("Jantar", Some("19:30"), "", None, None)
  const LANCHE: Refeicao := Refeicao("Lanche", Some(""), "", None, None)
  const DESJEJUM: Refeicao := Refeicao("Café", Some("07:00"), "", None, None)

  /** The times are taken in plan order, not sorted, and an empty time is skipped. */
  lemma HorariosNaOrdemDoPlano()
    ensures var s := Resumo(PlanoAlimentar("", [JANTAR, LANCHE, DESJEJUM], []));
            s.horarioInicio == Some("19:30") && s.horarioFim == Some("07:00")
  {
    var plano := PlanoAlimentar("", [JANTAR, LANCHE, DESJEJUM], []);
    HorarioInicioEhOPrimeiro(plano, 0);
    HorarioFimEhOUltimo(plano, 2);
  }
}
