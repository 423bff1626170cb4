/**
 * The catalogue's naming rules: the code of a name (`VariacaoProduto._code`),
 * the SKU base of a variant (`_sku_base`), the numbered candidates tried when
 * a SKU is taken (`_generate_unique_sku` and the loop of
 * `ensure_variacoes_para_tipos`), and the official order of shirt sizes
 * (`size_order_case`).
 */
module Catalogo {
  import opened Wrappers
  import opened Text

  /** A character a code may hold: an ASCII capital or a digit. */
  predicate CodigoChar(c: char)
  {
    ('A' <= c <= 'Z') || ('0' <= c <= '9')
  }

  predicate Codigo(s: string)
  {
    forall i :: 0 <= i < |s| ==> CodigoChar(s[i])
  }

  /** `c.upper()` on an ASCII character. */
  function MaiusculaAscii(c: char): char
  {
    if 'a' <= c <= 'z' then (c as int - 32) as char else c
  }

  /**
   * `_code`: the name reduced to ASCII, upper-cased, with every character that
   * is not a capital or a digit removed. Non-ASCII characters are dropped.
   */
  function Code(s: string): (r: string)
    ensures Codigo(r) && |r| <= |s|
  {
    if s == [] then []
    else
      var u := MaiusculaAscii(s[0]);
      (if CodigoChar(u) then [u] else []) + Code(s[1..])
  }

  /** The code of a concatenation is the concatenation of the codes. */
  lemma {:induction false} CodeConcat(a: string, b: string)
    ensures Code(a + b) == Code(a) + Code(b)
  {
    if a != [] {
      var u := MaiusculaAscii(a[0]);
      var h := if CodigoChar(u) then [u] else [];
      assert (a + b)[0] == a[0];
      assert (a + b)[1..] == a[1..] + b;
      assert Code(a + b) == h + Code(a[1..] + b);
      CodeConcat(a[1..], b);
      assert h + (Code(a[1..]) + Code(b)) == (h + Code(a[1..])) + Code(b);
    } else {
      assert a + b == b;
    }
  }

  /** A code is its own code: `_code` is idempotent. */
  lemma {:induction false} CodeDeCodigo(s: string)
    requires Codigo(s)
    ensures Code(s) == s
  {
    if s != [] {
      CodeDeCodigo(s[1..]);
    }
  }

  /** Letter case never matters: lower-casing a name first gives the same code. */
  lemma {:induction false} CodeIgnoraCaixa(s: string)
    ensures Code(Lower(s)) == Code(s)
  {
    if s != [] {
      assert Lower(s)[1..] == Lower(s[1..]);
      CodeIgnoraCaixa(s[1..]);
    }
  }

  /** `produto_id or 'X'`: a missing (or zero) product id is written X. */
  function IdTexto(produtoId: Option<nat>): (r: string)
    ensures r != [] && '-' !in r
  {
    if produtoId.None? || produtoId.value == 0 then "X" else NatToString(produtoId.value)
  }

  /**
   * `_sku_base`: product id, the first 8 characters of the product name's code
   * and the kind's code, joined by dashes, stripped of dashes at both ends and
   * cut to 36 characters (room for a "-N" suffix).
   */
  function SkuBase(produtoId: Option<nat>, nomeProduto: string, tipo: string): (r: string)
    ensures |r| <= 36
  {
    var juntos := IdTexto(produtoId) + "-" + SliceTo(Code(nomeProduto), 8) + "-" + Code(tipo);
    SliceTo(StripCharBoth(juntos, '-'), 36)
  }

  /** A SKU base holds only capitals, digits, dashes and the id's characters, and never starts with a dash. */
  lemma SkuBaseCaracteres(produtoId: Option<nat>, nomeProduto: string, tipo: string)
    ensures var r := SkuBase(produtoId, nomeProduto, tipo);
      (forall k :: 0 <= k < |r| ==> CodigoChar(r[k]) || r[k] == '-' || r[k] in IdTexto(produtoId))
      && (r != [] ==> r[0] != '-')
  {
    var juntos := IdTexto(produtoId) + "-" + SliceTo(Code(nomeProduto), 8) + "-" + Code(tipo);
    var r := SkuBase(produtoId, nomeProduto, tipo);
    var st := StripCharBoth(juntos, '-');
    assert r == st[..|r|];
    forall k | 0 <= k < |r| ensures CodigoChar(r[k]) || r[k] == '-' || r[k] in IdTexto(produtoId) {
      assert r[k] == st[k] && st[k] in juntos;
    }
  }

  /** With a kind whose code is not empty and everything within 36 characters, nothing is stripped or cut. */
  lemma SkuBaseCompleta(p: nat, nomeProduto: string, tipo: string)
    requires p > 0 && Code(tipo) != []
    requires |NatToString(p)| + |SliceTo(Code(nomeProduto), 8)| + |Code(tipo)| + 2 <= 36
    ensures SkuBase(Some(p), nomeProduto, tipo) == NatToString(p) + "-" + SliceTo(Code(nomeProduto), 8) + "-" + Code(tipo)
  {
    var juntos := NatToString(p) + "-" + SliceTo(Code(nomeProduto), 8) + "-" + Code(tipo);
    assert juntos[0] == NatToString(p)[0];
    assert juntos[|juntos| - 1] == Code(tipo)[|Code(tipo)| - 1];
    assert CodigoChar(Code(tipo)[|Code(tipo)| - 1]);
    assert IsDigit(NatToString(p)[0]);
  }

  /**
   * The n-th candidate for a taken SKU: the base followed by "-n". With a
   * length limit the base is first cut so the candidate fits the limit
   * (`base[:(40 - len(tail))] + tail`); without one it is kept whole.
   */
  function Candidato(base: string, n: nat, limite: Option<nat>): (r: string)
    ensures limite.Some? && 1 + |NatToString(n)| <= limite.value ==> |r| <= limite.value
  {
    var cauda := "-" + NatToString(n);
    (if limite.Some? then SliceTo(base, limite.value - |cauda|) else base) + cauda
  }

  /** The digits after the last dash are determined by the string. */
  lemma SufixoNumerico(a: string, s1: string, b: string, s2: string)
    requires AllDigits(s1) && AllDigits(s2)
    requires a + "-" + s1 == b + "-" + s2
    ensures s1 == s2
  {
    var x := a + "-" + s1;
    assert x[|x| - |s1| - 1] == '-' && x[|x| - |s2| - 1] == '-';
    assert forall k :: |x| - |s1| <= k < |x| ==> x[k] == s1[k - (|x| - |s1|)];
    assert forall k :: |x| - |s2| <= k < |x| ==> x[k] == s2[k - (|x| - |s2|)];
    assert |s1| == |s2|;
    assert s1 == x[|x| - |s1|..] == s2;
  }

  /** Distinct numbers give distinct candidates, whatever the base and the limit. */
  lemma CandidatoInjetivo(base: string, i: nat, j: nat, limite: Option<nat>)
    requires Candidato(base, i, limite) == Candidato(base, j, limite)
    ensures i == j
  {
    var pi := if limite.Some? then SliceTo(base, limite.value - |"-" + NatToString(i)|) else base;
    var pj := if limite.Some? then SliceTo(base, limite.value - |"-" + NatToString(j)|) else base;
    assert Candidato(base, i, limite) == pi + ("-" + NatToString(i)) == pi + "-" + NatToString(i);
    assert Candidato(base, j, limite) == pj + ("-" + NatToString(j)) == pj + "-" + NatToString(j);
    SufixoNumerico(pi, NatToString(i), pj, NatToString(j));
    NatToStringInjective(i, j);
  }

  /** A candidate numbered above all those tried is not among them. */
  lemma CandidatoNovo(base: string, n: nat, limite: Option<nat>, tentados: set<string>)
    requires forall t :: t in tentados ==> exists j :: 2 <= j < n && t == Candidato(base, j, limite)
    ensures Candidato(base, n, limite) !in tentados
  {
    if Candidato(base, n, limite) in tentados {
      var j :| 2 <= j < n && Candidato(base, n, limite) == Candidato(base, j, limite);
      CandidatoInjetivo(base, j, n, limite);
      assert false;
    }
  }

  /** Adding the n-th candidate to those tried keeps them all candidates numbered below n + 1. */
  lemma TentadosCrescem(base: string, n: nat, limite: Option<nat>, tentados: set<string>)
    requires n >= 2
    requires forall t :: t in tentados ==> exists j :: 2 <= j < n && t == Candidato(base, j, limite)
    ensures forall t :: t in tentados + {Candidato(base, n, limite)} ==>
      exists j :: 2 <= j < n + 1 && t == Candidato(base, j, limite)
  {
    forall t | t in tentados + {Candidato(base, n, limite)}
      ensures exists j :: 2 <= j < n + 1 && t == Candidato(base, j, limite)
    {
      if t in tentados {
        var j :| 2 <= j < n && t == Candidato(base, j, limite);
        assert j < n + 1;
      } else {
        assert t == Candidato(base, n, limite);
      }
    }
  }

  /**
   * What the SKU search picks: the base when it is free, otherwise the first
   * of the candidates numbered 2, 3, ... that no existing SKU takes.
   */
  ghost predicate SkuEscolhido(sku: string, base: string, existentes: set<string>, limite: Option<nat>)
  {
    sku !in existentes
    && (base !in existentes ==> sku == base)
    && (base in existentes ==>
          exists n :: n >= 2 && sku == Candidato(base, n, limite)
                      && forall j :: 2 <= j < n ==> Candidato(base, j, limite) in existentes)
  }

  /** The SKU search of `_generate_unique_sku` (limit 40) and `ensure_variacoes_para_tipos` (no limit). */
  method GerarSkuUnico(base: string, existentes: set<string>, limite: Option<nat>) returns (sku: string)
    ensures SkuEscolhido(sku, base, existentes, limite)
  {
    if base !in existentes {
      return base;
    }
    var n := 2;
    sku := Candidato(base, n, limite);
    ghost var tentados: set<string> := {};
    while sku in existentes
      invariant n >= 2 && sku == Candidato(base, n, limite)
      invariant forall j :: 2 <= j < n ==> Candidato(base, j, limite) in existentes
      invariant tentados <= existentes
      invariant forall t :: t in tentados ==> exists j :: 2 <= j < n && t == Candidato(base, j, limite)
      decreases |existentes - tentados|
    {
      CandidatoNovo(base, n, limite, tentados);
      TentadosCrescem(base, n, limite, tentados);
      assert existentes - (tentados + {sku}) == (existentes - tentados) - {sku};
      tentados := tentados + {sku};
      forall j | 2 <= j < n + 1 ensures Candidato(base, j, limite) in existentes {
        if j == n {
          assert Candidato(base, j, limite) == sku;
        }
      }
      n := n + 1;
      sku := Candidato(base, n, limite);
    }
  }

  /** The official order of shirt sizes. */
  const OrdemTamanhos: seq<string> := ["DIVERSOS", "PP", "P", "M", "G", "GG", "XGG", "PPB", "PB", "MB", "GB", "GGB", "XGGB"]

  /** Position of the first occurrence of s in xs, or |xs| when it does not occur. */
  function Posicao(xs: seq<string>, s: string): (r: nat)
    ensures r <= |xs|
    ensures r < |xs| ==> xs[r] == s
    ensures forall i :: 0 <= i < r ==> xs[i] != s
  {
    if xs == [] then 0
    else if xs[0] == s then 0
    else 1 + Posicao(xs[1..], s)
  }

  /** `size_order_case`: the rank of a size in the official order; sizes not listed rank last, all alike. */
  function RankTamanho(s: string): (r: nat)
    ensures r <= |OrdemTamanhos|
    ensures r == |OrdemTamanhos| <==> s !in OrdemTamanhos
  {
    Posicao(OrdemTamanhos, s)
  }

  /** No size is listed twice. */
  lemma TamanhosDistintos()
    ensures forall i, j :: 0 <= i < j < |OrdemTamanhos| ==> OrdemTamanhos[i] != OrdemTamanhos[j]
  {
  }

  /** In a list without repetitions, every element is found at its own position. */
  lemma {:induction false} PosicaoDeDistintos(xs: seq<string>, i: nat)
    requires i < |xs|
    requires forall a, b :: 0 <= a < b < |xs| ==> xs[a] != xs[b]
    ensures Posicao(xs, xs[i]) == i
  {
    if i > 0 {
      assert xs[0] != xs[i];
      assert xs[1..][i - 1] == xs[i];
      PosicaoDeDistintos(xs[1..], i - 1);
    }
  }

  /** Each listed size ranks at its own position, so sizes sort in the official order. */
  lemma RankSegueOrdem()
    ensures forall i :: 0 <= i < |OrdemTamanhos| ==> RankTamanho(OrdemTamanhos[i]) == i
  {
    TamanhosDistintos();
    forall i | 0 <= i < |OrdemTamanhos| ensures RankTamanho(OrdemTamanhos[i]) == i {
      PosicaoDeDistintos(OrdemTamanhos, i);
    }
  }
}
