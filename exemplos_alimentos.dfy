/** Concrete food names worked through `buscarNutrientes`. */
module ExemplosDeAlimentos {
  import opened Texto
  import opened Regras
  import opened Nutrientes

  lemma BananaEmMinusculas()
    ensures Minuscula("Banana") == "banana"
  {
    MinusculaCapitalizada('B', "anana");
    assert "Banana" == ['B'] + "anana";
  }

  lemma PaoIntegralEmMinusculas()
    ensures Minuscula("Pão integral") == "pão integral"
  {
    MinusculaCapitalizada('P', "ão integral");
    assert "Pão integral" == ['P'] + "ão integral";
  }

  lemma ArrozIntegralEmMinusculas()
    ensures Minuscula("Arroz integral") == "arroz integral"
  {
    MinusculaCapitalizada('A', "rroz integral");
    assert "Arroz integral" == ['A'] + "rroz integral";
  }

  /** No word of the first two rows occurs in "banana": each has a letter "banana" lacks. */
  lemma BananaNaoEhPaoNemQueijo(n: string)
    requires n == "banana"
    ensures !ContemAlguma(n, ["pão", "integral", "torrada"]) && !ContemAlguma(n, ["queijo", "branco", "ricota"])
  {
    NenhumaContida(n, ["pão", "integral", "torrada"], "pit");
    NenhumaContida(n, ["queijo", "branco", "ricota"], "qrr");
  }

  /** Nor of the third and fourth rows. */
  lemma BananaNaoEhGeleiaNemBebida(n: string)
    requires n == "banana"
    ensures !ContemAlguma(n, ["geleia"]) && !ContemAlguma(n, ["café", "chá", "leite"])
  {
    NenhumaContida(n, ["geleia"], "g");
    NenhumaContida(n, ["café", "chá", "leite"], "ccl");
  }

  /** None of the four rows before the fruit row matches "banana". */
  lemma BananaAntesDasFrutas(n: string)
    requires n == "banana"
    ensures forall j :: 0 <= j < 4 ==> !Casa(TABELA_ESTIMATIVA[j].padrao, n)
  {
    BananaNaoEhPaoNemQueijo(n);
    BananaNaoEhGeleiaNemBebida(n);
  }

  /** The fruit row matches "banana". */
  lemma FrutasCasaBanana(n: string)
    requires n == "banana"
    ensures Casa(TABELA_ESTIMATIVA[4].padrao, n)
  {
    assert "banana" <= n;
  }

  /** The fruit row is the first that "banana" matches. */
  lemma FrutasEhAPrimeiraParaBanana(n: string)
    requires n == "banana"
    ensures PrimeiraQueCasa(TABELA_ESTIMATIVA, n, 4)
  {
    BananaAntesDasFrutas(n);
    FrutasCasaBanana(n);
  }

  /** "Banana" gets the fruit row: 60 kcal per 100 g. */
  lemma BananaEhFruta()
    ensures BuscarNutrientes("Banana") == Perfil(60.0, 1.0, 15.0, 0.0)
  {
    BananaEmMinusculas();
    FrutasEhAPrimeiraParaBanana("banana");
    BuscarNutrientesPrimeiraLinha("Banana", 4);
  }

  /** "Pão integral" gets the bread row, the first one. */
  lemma PaoIntegralEhPao()
    ensures BuscarNutrientes("Pão integral") == Perfil(265.0, 9.0, 49.0, 3.0)
  {
    PaoIntegralEmMinusculas();
    assert "pão" <= "pão integral";
    BuscarNutrientesPrimeiraLinha("Pão integral", 0);
  }

  lemma PaoCasaArrozIntegral(n: string)
    requires n == "arroz integral"
    ensures PrimeiraQueCasa(TABELA_ESTIMATIVA, n, 0)
  {
    ContemSeOcorre(n, "integral");
    assert OcorreEm(n, "integral", 6);
  }

  /** "Arroz integral" already matches "integral" in the bread row, so it gets 265 kcal, not the rice row's 130. */
  lemma ArrozIntegralCaiNaLinhaDoPao()
    ensures BuscarNutrientes("Arroz integral") == Perfil(265.0, 9.0, 49.0, 3.0)
  {
    ArrozIntegralEmMinusculas();
    PaoCasaArrozIntegral("arroz integral");
    BuscarNutrientesPrimeiraLinha("Arroz integral", 0);
  }

  /** An empty name matches no row and gets the generic profile. */
  lemma NomeVazioEhGenerico()
    ensures BuscarNutrientes("") == GENERICO
  {
    assert forall j :: 0 <= j < |TABELA_ESTIMATIVA| ==> !Casa(TABELA_ESTIMATIVA[j].padrao, "");
    BuscarNutrientesGenerico("");
  }
}
