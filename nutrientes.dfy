/** `TABELA_ESTIMATIVA` and `buscarNutrientes`: a keyword table standing in for a food database. */
module Nutrientes {
  import opened Texto
  import opened Regras

  /** kcal and grams of protein, carbohydrate and fat per 100 g. */
  datatype Perfil = Perfil(kcal: real, protein: real, carb: real, fat: real)

  predicate NaoNegativo(p: Perfil) {
    p.kcal >= 0.0 && p.protein >= 0.0 && p.carb >= 0.0 && p.fat >= 0.0
  }

  /** The table rows in declaration order; a row matches when one of its words occurs in the name. */
  const TABELA_ESTIMATIVA: seq<Regra<Perfil>> := [
    Regra(AlgumaPalavra(["pão", "integral", "torrada"]), Perfil(265.0, 9.0, 49.0, 3.0)),
    Regra(AlgumaPalavra(["queijo", "branco", "ricota"]), Perfil(260.0, 18.0, 3.0, 20.0)),
    Regra(AlgumaPalavra(["geleia"]), Perfil(260.0, 0.0, 65.0, 0.0)),
    Regra(AlgumaPalavra(["café", "chá", "leite"]), Perfil(45.0, 3.0, 5.0, 2.0)),
    Regra(AlgumaPalavra(["banana", "maçã", "fruta", "laranja"]), Perfil(60.0, 1.0, 15.0, 0.0)),
    Regra(AlgumaPalavra(["iogurte", "natural"]), Perfil(60.0, 4.0, 7.0, 2.0)),
    Regra(AlgumaPalavra(["castanha", "castanhas", "amendoim", "nozes"]), Perfil(600.0, 15.0, 20.0, 55.0)),
    Regra(AlgumaPalavra(["salada", "legumes", "vegetais", "verdura"]), Perfil(25.0, 2.0, 4.0, 0.0)),
    Regra(AlgumaPalavra(["frango", "peixe", "peito", "grelhado", "proteína"]), Perfil(165.0, 31.0, 0.0, 4.0)),
    Regra(AlgumaPalavra(["ovo", "ovos"]), Perfil(155.0, 13.0, 1.0, 11.0)),
    Regra(AlgumaPalavra(["arroz", "integral"]), Perfil(130.0, 3.0, 28.0, 1.0)),
    Regra(AlgumaPalavra(["feijão", "leguminosa"]), Perfil(130.0, 9.0, 24.0, 0.0)),
    Regra(AlgumaPalavra(["batata", "mandioca"]), Perfil(90.0, 2.0, 21.0, 0.0)),
    Regra(AlgumaPalavra(["massa", "macarrão"]), Perfil(130.0, 5.0, 25.0, 1.0)),
    Regra(AlgumaPalavra(["peru", "peito de peru"]), Perfil(110.0, 22.0, 2.0, 1.0)),
    Regra(AlgumaPalavra(["suco", "vitamina", "smoothie"]), Perfil(45.0, 1.0, 11.0, 0.0)),
    Regra(AlgumaPalavra(["sopa"]), Perfil(35.0, 2.0, 5.0, 1.0))
  ]

  /** The profile of a name no row matches. */
  const GENERICO: Perfil := Perfil(120.0, 5.0, 15.0, 4.0)

  /** The profile of the first row one of whose words occurs in the lower-cased name; `GENERICO` otherwise. */
  function BuscarNutrientes(nome: string): (p: Perfil)
    ensures NaoNegativo(p)
  {
    PrimeiraRegraEntreValores(TABELA_ESTIMATIVA, Minuscula(nome), GENERICO);
    assert forall i :: 0 <= i < |TABELA_ESTIMATIVA| ==> NaoNegativo(TABELA_ESTIMATIVA[i].valor);
    PrimeiraRegra(TABELA_ESTIMATIVA, Minuscula(nome), GENERICO)
  }

  /** The first row whose words occur in the lower-cased name decides, even when later rows match too. */
  lemma BuscarNutrientesPrimeiraLinha(nome: string, i: int)
    requires PrimeiraQueCasa(TABELA_ESTIMATIVA, Minuscula(nome), i)
    ensures BuscarNutrientes(nome) == TABELA_ESTIMATIVA[i].valor
  {
    PrimeiraRegraCasa(TABELA_ESTIMATIVA, Minuscula(nome), GENERICO, i);
  }

  /** A name that matches no row gets the generic profile. */
  lemma BuscarNutrientesGenerico(nome: string)
    requires forall j :: 0 <= j < |TABELA_ESTIMATIVA| ==> !Casa(TABELA_ESTIMATIVA[j].padrao, Minuscula(nome))
    ensures BuscarNutrientes(nome) == GENERICO
  {
    PrimeiraRegraNenhuma(TABELA_ESTIMATIVA, Minuscula(nome), GENERICO);
  }

  /** Every name gets the first row it matches, or the generic profile when it matches none. */
  lemma BuscarNutrientesTotal(nome: string)
    ensures (exists i :: PrimeiraQueCasa(TABELA_ESTIMATIVA, Minuscula(nome), i) &&
                         BuscarNutrientes(nome) == TABELA_ESTIMATIVA[i].valor) ||
            ((forall j :: 0 <= j < |TABELA_ESTIMATIVA| ==> !Casa(TABELA_ESTIMATIVA[j].padrao, Minuscula(nome))) &&
             BuscarNutrientes(nome) == GENERICO)
  {
    PrimeiraRegraOrigem(TABELA_ESTIMATIVA, Minuscula(nome), GENERICO);
  }

  /** Matching ignores case: two names with the same lower-case form get the same profile. */
  lemma BuscarNutrientesSemCaixa(nome: string)
    ensures BuscarNutrientes(Minuscula(nome)) == BuscarNutrientes(nome)
  {
    MinusculaIdempotente(nome);
  }
}
