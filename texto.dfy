/** The string operations the estimator uses: `toLowerCase`, `includes`, `endsWith`. */
module Texto {

  /** True for the upper-case letters `toLowerCase` maps here: A-Z and the Latin-1 capitals À-Þ except ×. */
  predicate Maiuscula(c: char) {
    'A' <= c <= 'Z' || ('À' <= c <= 'Þ' && c != '×')
  }

  /** `toLowerCase` on one character: each of those capitals moves 32 code points down to its small letter. */
  function MinusculaChar(c: char): (r: char)
    ensures !Maiuscula(r)
    ensures !Maiuscula(c) ==> r == c
  {
    if Maiuscula(c) then (c as int + 32) as char else c
  }

  /** `s.toLowerCase()`, character by character. */
  function Minuscula(s: string): (r: string)
    ensures |r| == |s|
    ensures forall i :: 0 <= i < |r| ==> !Maiuscula(r[i])
    ensures r == s <==> forall i :: 0 <= i < |s| ==> !Maiuscula(s[i])
  {
    var r := seq(|s|, i requires 0 <= i < |s| => MinusculaChar(s[i]));
    assert r == s ==> forall i :: 0 <= i < |s| ==> r[i] == s[i];
    r
  }

  /** Text without capitals is its own lower-case form. */
  lemma MinusculaSemMaiusculas(s: string)
    requires forall i :: 0 <= i < |s| ==> !Maiuscula(s[i])
    ensures Minuscula(s) == s
  {
  }

  /** A capitalised word lower-cases to its small initial followed by the rest. */
  lemma MinusculaCapitalizada(c: char, resto: string)
    requires Maiuscula(c) && forall i :: 0 <= i < |resto| ==> !Maiuscula(resto[i])
    ensures Minuscula([c] + resto) == [MinusculaChar(c)] + resto
  {
  }

  /** Lower-casing twice is lower-casing once. */
  lemma MinusculaIdempotente(s: string)
    ensures Minuscula(Minuscula(s)) == Minuscula(s)
  {
  }

  /** `s.includes(p)`: `p` occurs in `s` at some position. */
  predicate Contem(s: string, p: string) {
    p <= s || (|s| > 0 && Contem(s[1..], p))
  }

  /** `s.endsWith(p)`. */
  predicate TerminaEm(s: string, p: string) {
    |p| <= |s| && s[|s| - |p|..] == p
  }

  /** `ws.some(w => s.includes(w))`, tried from the first word on. */
  predicate ContemAlguma(s: string, ws: seq<string>) {
    |ws| > 0 && (Contem(s, ws[0]) || ContemAlguma(s, ws[1..]))
  }

  /** `p` occurs in `s` starting at position `i`. */
  predicate OcorreEm(s: string, p: string, i: int) {
    0 <= i <= |s| - |p| && s[i..i + |p|] == p
  }

  /** `Contem` means: `p` occurs in `s` at some position. */
  lemma {:induction false} ContemSeOcorre(s: string, p: string)
    ensures Contem(s, p) <==> exists i :: OcorreEm(s, p, i)
  {
    if p <= s {
      assert OcorreEm(s, p, 0);
    } else if |s| > 0 {
      ContemSeOcorre(s[1..], p);
      if Contem(s[1..], p) {
        var i :| OcorreEm(s[1..], p, i);
        assert OcorreEm(s, p, i + 1);
      }
      if exists i :: OcorreEm(s, p, i) {
        var i :| OcorreEm(s, p, i);
        assert OcorreEm(s[1..], p, i - 1);
      }
    }
  }

  /** A character of `p` that `s` lacks rules out `s.includes(p)`. */
  lemma {:induction false} NaoContemCaractere(s: string, p: string, k: nat)
    requires k < |p| && p[k] !in s
    ensures !Contem(s, p)
  {
    if |s| > 0 {
      NaoContemCaractere(s[1..], p, k);
    }
  }

  /** `cs[i]` is a character of word `i` that `s` lacks, for every word: then no word occurs in `s`. */
  lemma {:induction false} NenhumaContida(s: string, ws: seq<string>, cs: string)
    requires |cs| == |ws|
    requires forall i :: 0 <= i < |ws| ==> cs[i] in ws[i] && cs[i] !in s
    ensures !ContemAlguma(s, ws)
  {
    if |ws| > 0 {
      var k :| 0 <= k < |ws[0]| && ws[0][k] == cs[0];
      NaoContemCaractere(s, ws[0], k);
      assert forall i :: 0 <= i < |ws| - 1 ==> ws[1..][i] == ws[i + 1] && cs[1..][i] == cs[i + 1];
      NenhumaContida(s, ws[1..], cs[1..]);
    }
  }

  /** `ContemAlguma` means: some word of `ws` occurs in `s`. */
  lemma {:induction false} ContemAlgumaSeAlguma(s: string, ws: seq<string>)
    ensures ContemAlguma(s, ws) <==> exists k :: 0 <= k < |ws| && Contem(s, ws[k])
  {
    if |ws| > 0 {
      ContemAlgumaSeAlguma(s, ws[1..]);
      if exists k :: 0 <= k < |ws| && Contem(s, ws[k]) {
        var k :| 0 <= k < |ws| && Contem(s, ws[k]);
        if k > 0 { assert ws[1..][k - 1] == ws[k]; }
      }
    }
  }

  /** `u === p` implies `u.endsWith(p)`, so the source's `u === "g" || u.endsWith("g")` is just the second test. */
  lemma IgualTerminaEm(s: string, p: string)
    requires s == p
    ensures TerminaEm(s, p)
  {
  }

  /** Whatever contains `p + q` contains `p`. */
  lemma ContemPrefixo(s: string, p: string, q: string)
    requires Contem(s, p + q)
    ensures Contem(s, p)
  {
    ContemSeOcorre(s, p + q);
    ContemSeOcorre(s, p);
    var i :| OcorreEm(s, p + q, i);
    assert s[i..i + |p|] == (p + q)[..|p|] == p;
    assert OcorreEm(s, p, i);
  }
}
