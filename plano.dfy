/** The meal-plan document the estimator reads (`ItemRefeicao`, `Refeicao`, `PlanoAlimentar`). */
module Plano {
  import opened Wrappers

  /**
   * One food of a meal. `quantidade` is the quantity text after `parseFloat`:
   * `None` when it is missing or does not parse (NaN).
   */
  datatype ItemRefeicao = ItemRefeicao(nome: string, quantidade: Option<real>, unidade: Option<string>)

  datatype Refeicao = Refeicao(
    nome: string,
    horarioSugerido: Option<string>,
    descricao: string,
    observacoes: Option<string>,
    itens: Option<seq<ItemRefeicao>>)

  datatype PlanoAlimentar = PlanoAlimentar(resumoGeral: string, refeicoes: seq<Refeicao>, avisosImportantes: seq<string>)

  /** `refeicao.itens && refeicao.itens.length > 0`. */
  predicate TemItens(r: Refeicao) {
    r.itens.Some? && |r.itens.value| > 0
  }

  /** `!!r.horario_sugerido`: the meal has a suggested time and it is not the empty string. */
  predicate TemHorario(r: Refeicao) {
    r.horarioSugerido.Some? && r.horarioSugerido.value != ""
  }
}
