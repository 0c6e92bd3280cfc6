/** `gramasAproximados`: an item's quantity and unit turned into approximate grams. */
module Conversao {
  import opened Wrappers
  import opened Texto
  import opened Regras

  /** How a unit turns a quantity into grams: grams per unit, or a fixed weight. */
  datatype Gramas = PorUnidade(fator: real) | Fixo(gramas: real)

  /** The unit rules in the order the source tries them; the first that matches applies. */
  const REGRAS_UNIDADE: seq<Regra<Gramas>> := [
    Regra(Ou(Igual("g"), TerminaCom("g")), PorUnidade(1.0)),
    Regra(Ou(Igual("ml"), TerminaCom("ml")), PorUnidade(1.02)),
    Regra(Ou(Inclui("colher de servir"), Inclui("concha")), PorUnidade(55.0)),
    Regra(Inclui("colher de sopa"), PorUnidade(15.0)),
    Regra(Inclui("fatia"), PorUnidade(30.0)),
    Regra(Inclui("xícara"), PorUnidade(150.0)),
    Regra(Ou(Inclui("unidade"), Inclui("unidade média")), PorUnidade(100.0)),
    Regra(E(Inclui("pote"), Inclui("170")), Fixo(170.0))
  ]

  /** Any other unit counts as an average serving of 50 g. */
  const PORCAO_MEDIA: Gramas := PorUnidade(50.0)

  /** No rule can turn a quantity of at least 1 into less than 1 g. */
  predicate AoMenosUmGrama(c: Gramas) {
    match c
    case PorUnidade(f) => f >= 1.0
    case Fixo(g) => g >= 1.0
  }

  /**
   * `Math.max(1, parseFloat(quantidade ?? "1") || 1)`. `None` stands for a missing
   * quantity and for text `parseFloat` cannot read (NaN); a parsed 0 is falsy and
   * also becomes 1.
   */
  function QuantidadeEfetiva(quantidade: Option<real>): (q: real)
    ensures q == (if quantidade.Some? && quantidade.value >= 1.0 then quantidade.value else 1.0)
  {
    var lida := match quantidade
      case None => 1.0
      case Some(v) => if v == 0.0 then 1.0 else v;
    if 1.0 >= lida then 1.0 else lida
  }

  function Aplicar(c: Gramas, q: real): real {
    match c
    case PorUnidade(f) => q * f
    case Fixo(g) => g
  }

  /** The unit rule that applies to a unit text (already lower-cased). */
  function RegraDaUnidade(u: string): Gramas {
    PrimeiraRegra(REGRAS_UNIDADE, u, PORCAO_MEDIA)
  }

  /** Whatever rule applies, a quantity of at least 1 weighs at least 1 g. */
  lemma RegraDaUnidadeAoMenosUmGrama(u: string)
    ensures AoMenosUmGrama(RegraDaUnidade(u))
  {
    PrimeiraRegraEntreValores(REGRAS_UNIDADE, u, PORCAO_MEDIA);
    assert forall i :: 0 <= i < |REGRAS_UNIDADE| ==> AoMenosUmGrama(REGRAS_UNIDADE[i].valor);
  }

  /** Grams for an item: the first unit rule that matches the lower-cased unit, applied to the effective quantity. */
  function GramasAproximados(quantidade: Option<real>, unidade: Option<string>): (g: real)
    ensures g >= 1.0
  {
    var q := QuantidadeEfetiva(quantidade);
    var u := Minuscula(unidade.GetOr(""));
    RegraDaUnidadeAoMenosUmGrama(u);
    Aplicar(RegraDaUnidade(u), q)
  }

  /** What the first four unit rules' patterns test, in the source's words. */
  lemma PadroesDaUnidadeAteColher(u: string)
    ensures Casa(REGRAS_UNIDADE[0].padrao, u) == (u == "g" || TerminaEm(u, "g"))
    ensures Casa(REGRAS_UNIDADE[1].padrao, u) == (u == "ml" || TerminaEm(u, "ml"))
    ensures Casa(REGRAS_UNIDADE[2].padrao, u) == (Contem(u, "colher de servir") || Contem(u, "concha"))
    ensures Casa(REGRAS_UNIDADE[3].padrao, u) == Contem(u, "colher de sopa")
  {
    var r := REGRAS_UNIDADE;
    assert r[0].padrao == Ou(Igual("g"), TerminaCom("g"));
    assert r[1].padrao == Ou(Igual("ml"), TerminaCom("ml"));
    assert r[2].padrao == Ou(Inclui("colher de servir"), Inclui("concha"));
  }

  /** What the last four unit rules' patterns test. */
  lemma PadroesDaUnidadeDesdeFatia(u: string)
    ensures Casa(REGRAS_UNIDADE[4].padrao, u) == Contem(u, "fatia")
    ensures Casa(REGRAS_UNIDADE[5].padrao, u) == Contem(u, "xícara")
    ensures Casa(REGRAS_UNIDADE[6].padrao, u) == (Contem(u, "unidade") || Contem(u, "unidade média"))
    ensures Casa(REGRAS_UNIDADE[7].padrao, u) == (Contem(u, "pote") && Contem(u, "170"))
  {
    var r := REGRAS_UNIDADE;
    assert r[6].padrao == Ou(Inclui("unidade"), Inclui("unidade média"));
    assert r[7].padrao == E(Inclui("pote"), Inclui("170"));
  }

  /** The unit rules unrolled: each is tried only when all before it failed. */
  lemma RegraDaUnidadeDesdobrada(u: string)
    ensures var r := REGRAS_UNIDADE;
            RegraDaUnidade(u) ==
              if Casa(r[0].padrao, u) then r[0].valor
              else if Casa(r[1].padrao, u) then r[1].valor
              else if Casa(r[2].padrao, u) then r[2].valor
              else if Casa(r[3].padrao, u) then r[3].valor
              else if Casa(r[4].padrao, u) then r[4].valor
              else if Casa(r[5].padrao, u) then r[5].valor
              else if Casa(r[6].padrao, u) then r[6].valor
              else if Casa(r[7].padrao, u) then r[7].valor
              else PORCAO_MEDIA
  {
    var r := REGRAS_UNIDADE;
    assert r[0..] == r;
    assert r[8..] == [];
    PrimeiraRegraDesde(r, u, PORCAO_MEDIA, 0);
    PrimeiraRegraDesde(r, u, PORCAO_MEDIA, 1);
    PrimeiraRegraDesde(r, u, PORCAO_MEDIA, 2);
    PrimeiraRegraDesde(r, u, PORCAO_MEDIA, 3);
    PrimeiraRegraDesde(r, u, PORCAO_MEDIA, 4);
    PrimeiraRegraDesde(r, u, PORCAO_MEDIA, 5);
    PrimeiraRegraDesde(r, u, PORCAO_MEDIA, 6);
    PrimeiraRegraDesde(r, u, PORCAO_MEDIA, 7);
  }

  /** The rule table says exactly what the source's chain of guarded returns says. */
  lemma RegraDaUnidadeComoCadeia(u: string)
    ensures RegraDaUnidade(u) ==
              if u == "g" || TerminaEm(u, "g") then PorUnidade(1.0)
              else if u == "ml" || TerminaEm(u, "ml") then PorUnidade(1.02)
              else if Contem(u, "colher de servir") || Contem(u, "concha") then PorUnidade(55.0)
              else if Contem(u, "colher de sopa") then PorUnidade(15.0)
              else if Contem(u, "fatia") then PorUnidade(30.0)
              else if Contem(u, "xícara") then PorUnidade(150.0)
              else if Contem(u, "unidade") || Contem(u, "unidade média") then PorUnidade(100.0)
              else if Contem(u, "pote") && Contem(u, "170") then Fixo(170.0)
              else PORCAO_MEDIA
  {
    RegraDaUnidadeDesdobrada(u);
    PadroesDaUnidadeAteColher(u);
    PadroesDaUnidadeDesdeFatia(u);
  }

  /** `gramasAproximados` as the source writes it: ordered guarded returns over the lower-cased unit. */
  lemma GramasComoCadeia(quantidade: Option<real>, unidade: Option<string>)
    ensures var q := QuantidadeEfetiva(quantidade);
            var u := Minuscula(unidade.GetOr(""));
            GramasAproximados(quantidade, unidade) ==
              if u == "g" || TerminaEm(u, "g") then q
              else if u == "ml" || TerminaEm(u, "ml") then q * 1.02
              else if Contem(u, "colher de servir") || Contem(u, "concha") then q * 55.0
              else if Contem(u, "colher de sopa") then q * 15.0
              else if Contem(u, "fatia") then q * 30.0
              else if Contem(u, "xícara") then q * 150.0
              else if Contem(u, "unidade") || Contem(u, "unidade média") then q * 100.0
              else if Contem(u, "pote") && Contem(u, "170") then 170.0
              else q * 50.0
  {
    RegraDaUnidadeComoCadeia(Minuscula(unidade.GetOr("")));
  }

  /** A unit ending in "g" ("g", "kg", "pote 170g") leaves the effective quantity as it is. */
  lemma TerminaEmGramas(quantidade: Option<real>, unidade: string)
    requires TerminaEm(Minuscula(unidade), "g")
    ensures GramasAproximados(quantidade, Some(unidade)) == QuantidadeEfetiva(quantidade)
  {
    GramasComoCadeia(quantidade, Some(unidade));
  }

  /** The second test of the "unidade" rule adds nothing: "unidade média" contains "unidade". */
  lemma UnidadeMediaEhUnidade(u: string)
    requires Contem(u, "unidade média")
    ensures Contem(u, "unidade")
  {
    assert "unidade média" == "unidade" + " média";
    ContemPrefixo(u, "unidade", " média");
  }

  /** The fixed 170 g fires exactly when "pote" and "170" occur and no earlier rule matched, so never for a unit ending in "g". */
  lemma PoteDe170(u: string)
    ensures RegraDaUnidade(u) == Fixo(170.0) <==>
              !TerminaEm(u, "g") && !TerminaEm(u, "ml") &&
              !Contem(u, "colher de servir") && !Contem(u, "concha") && !Contem(u, "colher de sopa") &&
              !Contem(u, "fatia") && !Contem(u, "xícara") && !Contem(u, "unidade") &&
              Contem(u, "pote") && Contem(u, "170")
  {
    RegraDaUnidadeComoCadeia(u);
    if u == "g" { IgualTerminaEm(u, "g"); }
    if u == "ml" { IgualTerminaEm(u, "ml"); }
    if Contem(u, "unidade média") {
      UnidadeMediaEhUnidade(u);
    }
  }

  /** A rule never gives fewer grams for more units. */
  lemma AplicarMonotono(c: Gramas, a: real, b: real)
    requires AoMenosUmGrama(c) && a <= b
    ensures Aplicar(c, a) <= Aplicar(c, b)
  {
    if c.PorUnidade? {
      assert (b - a) * c.fator >= 0.0;
    }
  }

  /** More of the same unit never weighs less. */
  lemma GramasMonotonos(q1: Option<real>, q2: Option<real>, unidade: Option<string>)
    requires QuantidadeEfetiva(q1) <= QuantidadeEfetiva(q2)
    ensures GramasAproximados(q1, unidade) <= GramasAproximados(q2, unidade)
  {
    var u := Minuscula(unidade.GetOr(""));
    RegraDaUnidadeAoMenosUmGrama(u);
    AplicarMonotono(RegraDaUnidade(u), QuantidadeEfetiva(q1), QuantidadeEfetiva(q2));
  }
}
