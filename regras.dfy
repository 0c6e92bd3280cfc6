/**
 * Ordered first-match rule tables. The estimator has three: the unit rules of
 * `gramasAproximados`, the keyword rows of `TABELA_ESTIMATIVA` and the meal-slot
 * defaults of `estimarRefeicao`. Each is tried in declaration order and the
 * first rule whose pattern matches the (lower-cased) text decides.
 */
module Regras {
  import opened Texto

  /** The string tests that appear in the tables. */
  datatype Padrao =
    | Igual(texto: string)                  // u === texto
    | TerminaCom(sufixo: string)            // u.endsWith(sufixo)
    | Inclui(trecho: string)                // u.includes(trecho)
    | AlgumaPalavra(palavras: seq<string>)  // palavras.some(p => u.includes(p))
    | Ou(esq: Padrao, dir: Padrao)
    | E(esq: Padrao, dir: Padrao)

  predicate Casa(p: Padrao, s: string) {
    match p
    case Igual(t) => s == t
    case TerminaCom(t) => TerminaEm(s, t)
    case Inclui(t) => Contem(s, t)
    case AlgumaPalavra(ws) => ContemAlguma(s, ws)
    case Ou(a, b) => Casa(a, s) || Casa(b, s)
    case E(a, b) => Casa(a, s) && Casa(b, s)
  }

  datatype Regra<R> = Regra(padrao: Padrao, valor: R)

  /** Rule `i` is the first rule of `regras` that matches `s`. */
  predicate PrimeiraQueCasa<R>(regras: seq<Regra<R>>, s: string, i: int) {
    0 <= i < |regras| && Casa(regras[i].padrao, s) &&
    forall j :: 0 <= j < i ==> !Casa(regras[j].padrao, s)
  }

  /** The value of the first rule that matches `s`, or `senao` when none does. */
  function PrimeiraRegra<R>(regras: seq<Regra<R>>, s: string, senao: R): R {
    if regras == [] then senao
    else if Casa(regras[0].padrao, s) then regras[0].valor
    else PrimeiraRegra(regras[1..], s, senao)
  }

  /** One step of the search, from rule `k` on. */
  lemma PrimeiraRegraDesde<R>(regras: seq<Regra<R>>, s: string, senao: R, k: nat)
    requires k < |regras|
    ensures PrimeiraRegra(regras[k..], s, senao) ==
            if Casa(regras[k].padrao, s) then regras[k].valor else PrimeiraRegra(regras[k + 1..], s, senao)
  {
    assert regras[k..][1..] == regras[k + 1..];
  }

  /** The first matching rule decides, whatever the later rules say. */
  lemma {:induction false} PrimeiraRegraCasa<R>(regras: seq<Regra<R>>, s: string, senao: R, i: int)
    requires PrimeiraQueCasa(regras, s, i)
    ensures PrimeiraRegra(regras, s, senao) == regras[i].valor
  {
    if i > 0 {
      assert !Casa(regras[0].padrao, s);
      PrimeiraRegraCasa(regras[1..], s, senao, i - 1);
    }
  }

  /** When no rule matches, the fallback value is returned. */
  lemma {:induction false} PrimeiraRegraNenhuma<R>(regras: seq<Regra<R>>, s: string, senao: R)
    requires forall j :: 0 <= j < |regras| ==> !Casa(regras[j].padrao, s)
    ensures PrimeiraRegra(regras, s, senao) == senao
  {
    if regras != [] {
      assert !Casa(regras[0].padrao, s);
      PrimeiraRegraNenhuma(regras[1..], s, senao);
    }
  }

  /** The result is the value of the first matching rule, or the fallback when no rule matches. */
  lemma {:induction false} PrimeiraRegraOrigem<R>(regras: seq<Regra<R>>, s: string, senao: R)
    ensures (exists i :: PrimeiraQueCasa(regras, s, i)) ||
            (forall j :: 0 <= j < |regras| ==> !Casa(regras[j].padrao, s))
    ensures forall i :: PrimeiraQueCasa(regras, s, i) ==> PrimeiraRegra(regras, s, senao) == regras[i].valor
    ensures (forall j :: 0 <= j < |regras| ==> !Casa(regras[j].padrao, s)) ==> PrimeiraRegra(regras, s, senao) == senao
  {
    if regras != [] {
      PrimeiraRegraOrigem(regras[1..], s, senao);
      if Casa(regras[0].padrao, s) {
        assert PrimeiraQueCasa(regras, s, 0);
      } else if exists i :: PrimeiraQueCasa(regras[1..], s, i) {
        var i :| PrimeiraQueCasa(regras[1..], s, i);
        assert PrimeiraQueCasa(regras, s, i + 1) by {
          forall j | 0 <= j < i + 1 ensures !Casa(regras[j].padrao, s) {
            if j > 0 { assert regras[j] == regras[1..][j - 1]; }
          }
        }
      } else {
        forall j | 0 <= j < |regras| ensures !Casa(regras[j].padrao, s) {
          if j > 0 { assert regras[j] == regras[1..][j - 1]; }
        }
      }
    }
    forall i | PrimeiraQueCasa(regras, s, i) ensures PrimeiraRegra(regras, s, senao) == regras[i].valor {
      PrimeiraRegraCasa(regras, s, senao, i);
    }
    if forall j :: 0 <= j < |regras| ==> !Casa(regras[j].padrao, s) {
      PrimeiraRegraNenhuma(regras, s, senao);
    }
  }

  /** A property every rule value and the fallback share is shared by the result. */
  lemma PrimeiraRegraEntreValores<R>(regras: seq<Regra<R>>, s: string, senao: R)
    ensures PrimeiraRegra(regras, s, senao) == senao ||
            exists i :: 0 <= i < |regras| && PrimeiraRegra(regras, s, senao) == regras[i].valor
  {
    PrimeiraRegraOrigem(regras, s, senao);
  }
}
