/** Concrete units worked through `gramasAproximados`. */
module ExemplosDeUnidades {
  import opened Wrappers
  import opened Texto
  import opened Conversao

  lemma FatiaNaoEhColher()
    ensures !Contem("fatia", "colher de servir") && !Contem("fatia", "concha") && !Contem("fatia", "colher de sopa")
  {
    NaoContemCaractere("fatia", "colher de servir", 6);
    NaoContemCaractere("fatia", "concha", 0);
    NaoContemCaractere("fatia", "colher de sopa", 0);
  }

  lemma RegraDaFatia()
    ensures RegraDaUnidade("fatia") == PorUnidade(30.0)
  {
    RegraDaUnidadeComoCadeia("fatia");
    FatiaNaoEhColher();
  }

  /** Two slices weigh 60 g. */
  lemma DuasFatias()
    ensures GramasAproximados(Some(2.0), Some("fatia")) == 60.0
  {
    MinusculaSemMaiusculas("fatia");
    RegraDaFatia();
  }

  /** A quantity parsed as 0 is falsy and becomes 1: one slice, 30 g. */
  lemma ZeroViraUm()
    ensures GramasAproximados(Some(0.0), Some("fatia")) == 30.0
  {
    MinusculaSemMaiusculas("fatia");
    RegraDaFatia();
  }

  lemma XicaraNaoEhColherNemFatia()
    ensures !Contem("xícara", "colher de servir") && !Contem("xícara", "concha") &&
            !Contem("xícara", "colher de sopa") && !Contem("xícara", "fatia")
  {
    NaoContemCaractere("xícara", "colher de servir", 6);
    NaoContemCaractere("xícara", "concha", 1);
    NaoContemCaractere("xícara", "colher de sopa", 6);
    NaoContemCaractere("xícara", "fatia", 0);
  }

  /** One cup weighs 150 g. */
  lemma UmaXicara()
    ensures GramasAproximados(Some(1.0), Some("xícara")) == 150.0
  {
    MinusculaSemMaiusculas("xícara");
    RegraDaUnidadeComoCadeia("xícara");
    XicaraNaoEhColherNemFatia();
  }

  /** Without a quantity, grams count as 1 g. */
  lemma GramaSemQuantidade()
    ensures GramasAproximados(None, Some("g")) == 1.0
  {
    TerminaEmGramas(None, "g");
  }

  /** Half a gram is clamped to 1 g. */
  lemma MeioGrama()
    ensures GramasAproximados(Some(0.5), Some("g")) == 1.0
  {
    TerminaEmGramas(Some(0.5), "g");
  }

  lemma UnidadeNaoEhColherFatiaNemXicara(u: string)
    requires u == "unidade" || u == "unidade média"
    ensures !Contem(u, "colher de servir") && !Contem(u, "concha") && !Contem(u, "colher de sopa") &&
            !Contem(u, "fatia") && !Contem(u, "xícara")
  {
    NaoContemCaractere(u, "concha", 0);
    NaoContemCaractere(u, "colher de servir", 0);
    NaoContemCaractere(u, "colher de sopa", 0);
    NaoContemCaractere(u, "fatia", 0);
    NaoContemCaractere(u, "xícara", 0);
  }

  lemma RegraDaUnidadeMedia()
    ensures RegraDaUnidade("unidade média") == PorUnidade(100.0)
  {
    RegraDaUnidadeComoCadeia("unidade média");
    UnidadeNaoEhColherFatiaNemXicara("unidade média");
    assert "unidade" <= "unidade média";
  }

  /** "unidade média" is caught by the "unidade" test: 100 g. */
  lemma UmaUnidadeMedia()
    ensures GramasAproximados(Some(1.0), Some("unidade média")) == 100.0
  {
    MinusculaSemMaiusculas("unidade média");
    RegraDaUnidadeMedia();
  }

  /** "pote 170g" ends in "g", so three of them are 3 g, not 170 g. */
  lemma PoteDe170GramasTerminaEmG()
    ensures GramasAproximados(Some(3.0), Some("pote 170g")) == 3.0
  {
    MinusculaSemMaiusculas("pote 170g");
    TerminaEmGramas(Some(3.0), "pote 170g");
  }

  lemma PoteNaoEhColher()
    ensures !Contem("pote 170", "colher de servir") && !Contem("pote 170", "concha") && !Contem("pote 170", "colher de sopa")
  {
    NaoContemCaractere("pote 170", "colher de servir", 0);
    NaoContemCaractere("pote 170", "concha", 0);
    NaoContemCaractere("pote 170", "colher de sopa", 0);
  }

  lemma PoteNaoEhFatiaXicaraNemUnidade()
    ensures !Contem("pote 170", "fatia") && !Contem("pote 170", "xícara") && !Contem("pote 170", "unidade")
  {
    NaoContemCaractere("pote 170", "fatia", 0);
    NaoContemCaractere("pote 170", "xícara", 0);
    NaoContemCaractere("pote 170", "unidade", 0);
  }

  lemma PoteContem170()
    ensures Contem("pote 170", "pote") && Contem("pote 170", "170")
  {
    var u := "pote 170";
    assert "pote" <= u;
    ContemSeOcorre(u, "170");
    assert OcorreEm(u, "170", 5);
  }

  /** "pote 170" without the "g" is the fixed 170 g, whatever the quantity. */
  lemma PoteDe170Fixo()
    ensures GramasAproximados(Some(2.0), Some("pote 170")) == 170.0
  {
    MinusculaSemMaiusculas("pote 170");
    PoteNaoEhColher();
    PoteNaoEhFatiaXicaraNemUnidade();
    PoteContem170();
    PoteDe170("pote 170");
  }

  lemma RegraDaUnidadeSimples()
    ensures RegraDaUnidade("unidade") == PorUnidade(100.0)
  {
    RegraDaUnidadeComoCadeia("unidade");
    UnidadeNaoEhColherFatiaNemXicara("unidade");
  }

  /** One unit weighs 100 g. */
  lemma UmaUnidade()
    ensures GramasAproximados(Some(1.0), Some("unidade")) == 100.0
  {
    MinusculaSemMaiusculas("unidade");
    RegraDaUnidadeSimples();
  }
}
