/**
 * The validators of the web forms: the percentage and non-negative field
 * cleaners, the variant form, the two formsets that refuse a repeated key
 * (variant of a shipment line, number of an instalment) and the receipt
 * form's bucket checks. A field error is Django's `add_error`, which also
 * removes the field from the cleaned data.
 */
module Formularios {
  import opened Wrappers
  import opened Estoque
  import opened Decimal

  // ---- field cleaners ----

  /** `clean_desconto_percentual` / `clean_acrescimo_percentual`: empty is 0; outside [0, 100] is refused. */
  function LimparPercentual(v: Option<real>): (r: Result<real>)
    ensures r.Ok? <==> (v.None? || 0.0 <= v.value <= 100.0)
    ensures r.Ok? ==> 0.0 <= r.value <= 100.0 && r.value == (if v.None? then 0.0 else v.value)
  {
    var x := if v.None? then 0.0 else v.value;
    if x < 0.0 || x > 100.0 then Err("O percentual deve estar entre 0% e 100%.") else Ok(x)
  }

  /** `clean_qtd_prevista` / `clean_preco_unit`: empty is 0; a negative value is refused. */
  function LimparNaoNegativo(v: Option<real>): (r: Result<real>)
    ensures r.Ok? <==> (v.None? || v.value >= 0.0)
    ensures r.Ok? ==> r.value >= 0.0 && r.value == (if v.None? then 0.0 else v.value)
  {
    if v.None? then Ok(0.0) else if v.value < 0.0 then Err("Não pode ser negativo.") else Ok(v.value)
  }

  // ---- VariacaoForm ----

  datatype CampoVariacao = EstoqueAtual | CustoUnitario | PrecoSugerido

  /** `VariacaoForm.clean`: the fields that receive "cannot be negative" (an empty field never does). */
  function ErrosVariacao(estoque: Option<real>, custo: Option<real>, preco: Option<real>): (e: set<CampoVariacao>)
    ensures EstoqueAtual in e <==> estoque.Some? && estoque.value < 0.0
    ensures CustoUnitario in e <==> custo.Some? && custo.value < 0.0
    ensures PrecoSugerido in e <==> preco.Some? && preco.value < 0.0
  {
    (if estoque.Some? && estoque.value < 0.0 then {EstoqueAtual} else {})
    + (if custo.Some? && custo.value < 0.0 then {CustoUnitario} else {})
    + (if preco.Some? && preco.value < 0.0 then {PrecoSugerido} else {})
  }

  /** A DecimalField value with no more decimals than the quantum and fewer integer digits than the bound allows. */
  predicate CabeEmDecimal(x: real, q: Quantum, limite: real)
  {
    OnGrid(x, q) && -limite < x < limite
  }

  /**
   * The field checks `VariacaoForm` runs before `clean`: `tipo`, already
   * stripped of surrounding whitespace as CharField does, is required and at
   * most 40 characters; stock and price (`max_digits=12, decimal_places=2`)
   * and unit cost (`max_digits=12, decimal_places=4`) fit their columns.
   */
  predicate CamposVariacaoValidos(tipo: string, estoque: real, custo: real, preco: real)
  {
    tipo != [] && |tipo| <= 40
    && CabeEmDecimal(estoque, Cents, 10000000000.0)
    && CabeEmDecimal(custo, TenThousandths, 100000000.0)
    && CabeEmDecimal(preco, Cents, 10000000000.0)
  }

  /** `VariacaoForm.save`: the posted variant, except that an existing one keeps its stored sku. */
  function SalvarVariacao(armazenada: Option<Variacao>, postada: Variacao): (v: Variacao)
    ensures armazenada.Some? ==> v.sku == armazenada.value.sku && v.(sku := postada.sku) == postada
    ensures armazenada.None? ==> v == postada
  {
    if armazenada.Some? then postada.(sku := armazenada.value.sku) else postada
  }

  // ---- first occurrence wins ----

  /** The keys met so far; a row without key (None) is not looked at. */
  function Vistos<K(==)>(ks: seq<Option<K>>): set<K>
  {
    if ks == [] then {}
    else Vistos(ks[..|ks| - 1]) + (if ks[|ks| - 1].Some? then {ks[|ks| - 1].value} else {})
  }

  /** Row k repeats a key an earlier row already had. */
  predicate JaVista<K(==)>(ks: seq<Option<K>>, k: nat)
    requires k < |ks|
  {
    ks[k].Some? && ks[k].value in Vistos(ks[..k])
  }

  /** The keys met before row n are exactly the keys of the earlier rows that were not repeats. */
  lemma {:induction false} VistosPrimeiras<K>(ks: seq<Option<K>>, n: nat)
    requires n <= |ks|
    ensures forall x :: x in Vistos(ks[..n]) ==> exists i :: 0 <= i < n && ks[i] == Some(x) && !JaVista(ks, i)
    ensures forall i :: 0 <= i < n && ks[i].Some? && !JaVista(ks, i) ==> ks[i].value in Vistos(ks[..n])
  {
    if n > 0 {
      VistosPrimeiras(ks, n - 1);
      var p := ks[..n];
      assert p[..n - 1] == ks[..n - 1] && p[n - 1] == ks[n - 1];
      assert Vistos(p) == Vistos(ks[..n - 1]) + (if ks[n - 1].Some? then {ks[n - 1].value} else {});
      forall x | x in Vistos(p)
        ensures exists i :: 0 <= i < n && ks[i] == Some(x) && !JaVista(ks, i)
      {
        if x !in Vistos(ks[..n - 1]) {
          assert ks[n - 1] == Some(x) && !JaVista(ks, n - 1);
        }
      }
    }
  }

  /** Rows that are not repeats carry pairwise distinct keys, and every repeat has an earlier row that is not. */
  lemma PrimeirasDistintas<K>(ks: seq<Option<K>>)
    ensures forall i, j :: 0 <= i < j < |ks| && ks[i].Some? && !JaVista(ks, i) && !JaVista(ks, j) ==> ks[i] != ks[j]
    ensures forall j :: 0 <= j < |ks| && JaVista(ks, j) ==>
      exists i :: 0 <= i < j && ks[i] == ks[j] && !JaVista(ks, i)
  {
    forall i, j | 0 <= i < j < |ks| && ks[i].Some? && !JaVista(ks, i) && !JaVista(ks, j)
      ensures ks[i] != ks[j]
    {
      VistosPrimeiras(ks, j);
    }
    forall j | 0 <= j < |ks| && JaVista(ks, j)
      ensures exists i :: 0 <= i < j && ks[i] == ks[j] && !JaVista(ks, i)
    {
      VistosPrimeiras(ks, j);
    }
  }

  // ---- BaseRemessaItemFormSet.clean ----

  /** A shipment-line form: whether it has cleaned data, its DELETE flag, variant, quantity and price. */
  datatype LinhaItem = LinhaItem(limpa: bool, apagar: bool, variacao: Option<nat>, qtd: Option<real>, preco: Option<real>)

  /** What the formset does with a line. */
  datatype Veredito =
    | Ignorada     // no cleaned data, or already marked for deletion
    | Descartada   // entirely empty: marked DELETE
    | SemVariacao  // quantity or price without a variant: error "Selecione a variação."
    | Duplicada    // variant already on an earlier line: error on the line
    | Aceita

  function Valor(v: Option<real>): real
  {
    if v.None? then 0.0 else v.value
  }

  /** The key the `vistos` check looks at: the variant of a live line that has one. */
  function ChavesItens(ls: seq<LinhaItem>): (ks: seq<Option<nat>>)
    ensures |ks| == |ls|
    ensures forall k :: 0 <= k < |ls| ==>
      ks[k] == (if ls[k].limpa && !ls[k].apagar then ls[k].variacao else None)
  {
    seq(|ls|, k requires 0 <= k < |ls| => if ls[k].limpa && !ls[k].apagar then ls[k].variacao else None)
  }

  /** The verdict on line k. */
  function VereditoEm(ls: seq<LinhaItem>, k: nat): Veredito
    requires k < |ls|
  {
    var l := ls[k];
    if !l.limpa || l.apagar then Ignorada
    else if l.variacao.None? && Valor(l.qtd) == 0.0 && Valor(l.preco) == 0.0 then Descartada
    else if l.variacao.None? then SemVariacao
    else if JaVista(ChavesItens(ls), k) then Duplicada
    else Aceita
  }

  /**
   * The formset's `clean`: one verdict per line, and whether some line was a
   * duplicate, in which case the formset raises its own error. For two valid
   * forms of the same variant, `BaseModelFormSet.clean`'s unique-together
   * check reports first, before this loop; either way the formset is invalid.
   */
  method LimparItens(ls: seq<LinhaItem>) returns (vs: seq<Veredito>, duplicado: bool)
    ensures |vs| == |ls| && forall k :: 0 <= k < |ls| ==> vs[k] == VereditoEm(ls, k)
    ensures duplicado <==> Duplicada in vs
  {
    var ks := ChavesItens(ls);
    var vistos: set<nat> := {};
    vs, duplicado := [], false;
    var k := 0;
    while k < |ls|
      invariant k <= |ls| && |vs| == k
      invariant forall i :: 0 <= i < k ==> vs[i] == VereditoEm(ls, i)
      invariant vistos == Vistos(ks[..k])
      invariant duplicado <==> Duplicada in vs
    {
      assert ks[..k + 1][..k] == ks[..k];
      var l := ls[k];
      var v: Veredito;
      if !l.limpa || l.apagar {
        v := Ignorada;
      } else if l.variacao.None? && Valor(l.qtd) == 0.0 && Valor(l.preco) == 0.0 {
        v := Descartada;
      } else if l.variacao.None? {
        v := SemVariacao;
      } else if l.variacao.value in vistos {
        v := Duplicada;
        duplicado := true;
      } else {
        v := Aceita;
        vistos := vistos + {l.variacao.value};
      }
      vs := vs + [v];
      k := k + 1;
    }
  }

  /**
   * One line per variant: accepted lines have distinct variants, and every
   * duplicate repeats the variant of an earlier accepted line.
   */
  lemma ItensAceitosDistintos(ls: seq<LinhaItem>)
    ensures forall i, j :: 0 <= i < j < |ls| && VereditoEm(ls, i) == Aceita && VereditoEm(ls, j) == Aceita ==>
      ls[i].variacao != ls[j].variacao
    ensures forall j :: 0 <= j < |ls| && VereditoEm(ls, j) == Duplicada ==>
      exists i :: 0 <= i < j && VereditoEm(ls, i) == Aceita && ls[i].variacao == ls[j].variacao
  {
    var ks := ChavesItens(ls);
    PrimeirasDistintas(ks);
    forall j | 0 <= j < |ls| && VereditoEm(ls, j) == Duplicada
      ensures exists i :: 0 <= i < j && VereditoEm(ls, i) == Aceita && ls[i].variacao == ls[j].variacao
    {
      var i :| 0 <= i < j && ks[i] == ks[j] && !JaVista(ks, i);
      assert VereditoEm(ls, i) == Aceita;
    }
  }

  // ---- BaseParcelaFormSet.clean ----

  /** An instalment form: whether it has cleaned data, its DELETE flag and its number (possibly empty). */
  datatype LinhaParcela = LinhaParcela(limpa: bool, apagar: bool, numero: Option<nat>)

  /** The key the `numeros` check looks at: the number, empty or not, of every live row. */
  function ChavesParcelas(ls: seq<LinhaParcela>): (ks: seq<Option<Option<nat>>>)
    ensures |ks| == |ls|
    ensures forall k :: 0 <= k < |ls| ==> ks[k] == (if ls[k].limpa && !ls[k].apagar then Some(ls[k].numero) else None)
  {
    seq(|ls|, k requires 0 <= k < |ls| => if ls[k].limpa && !ls[k].apagar then Some(ls[k].numero) else None)
  }

  /** The formset's `clean`: the rows that receive "Número de parcela repetido.". */
  method LimparParcelas(ls: seq<LinhaParcela>) returns (erros: set<nat>)
    ensures forall k: nat :: k in erros <==> k < |ls| && JaVista(ChavesParcelas(ls), k)
  {
    var ks := ChavesParcelas(ls);
    var numeros: seq<Option<nat>> := [];
    erros := {};
    var k := 0;
    while k < |ls|
      invariant k <= |ls|
      invariant forall x :: x in numeros <==> x in Vistos(ks[..k])
      invariant forall i: nat :: i in erros <==> i < k && JaVista(ks, i)
    {
      assert ks[..k + 1][..k] == ks[..k];
      var f := ls[k];
      if f.limpa && !f.apagar {
        var n := f.numero;
        if n in numeros {
          erros := erros + {k};
        } else {
          numeros := numeros + [n];
        }
      }
      k := k + 1;
    }
  }

  /** Live rows without the error carry distinct numbers, and each erroneous row repeats one of them. */
  lemma ParcelasSemRepeticao(ls: seq<LinhaParcela>)
    ensures var ks := ChavesParcelas(ls);
      forall i, j :: 0 <= i < j < |ls| && ks[i].Some? && !JaVista(ks, i) && ks[j].Some? && !JaVista(ks, j) ==>
        ls[i].numero != ls[j].numero
    ensures var ks := ChavesParcelas(ls);
      forall j :: 0 <= j < |ls| && JaVista(ks, j) ==>
        exists i :: 0 <= i < j && ks[i].Some? && !JaVista(ks, i) && ls[i].numero == ls[j].numero
  {
    PrimeirasDistintas(ChavesParcelas(ls));
  }

  // ---- RemessaReceiveItemForm.clean ----

  datatype Campo = QtdOk | QtdPerda | QtdExtravio | QtdDevolvida | PrecoUnit

  /** The four return buckets, in the order the form checks them. */
  const Baldes: seq<Campo> := [QtdOk, QtdPerda, QtdExtravio, QtdDevolvida]
  const Campos: seq<Campo> := [QtdOk, QtdPerda, QtdExtravio, QtdDevolvida, PrecoUnit]

  lemma TodosCampos()
    ensures forall c: Campo :: c in Campos
  {
    forall c: Campo ensures c in Campos {
      match c
      case QtdOk => assert Campos[0] == c;
      case QtdPerda => assert Campos[1] == c;
      case QtdExtravio => assert Campos[2] == c;
      case QtdDevolvida => assert Campos[3] == c;
      case PrecoUnit => assert Campos[4] == c;
    }
  }

  /** The cleaned data the form returns and the fields that received an error. */
  datatype Limpeza = Limpeza(dados: map<Campo, real>, erros: set<Campo>)

  /** Every field present, empty ones (absent from the input) as 0. */
  function ZerarVazios(entrada: map<Campo, real>): (d: map<Campo, real>)
    ensures forall c :: c in d
    ensures forall c :: d[c] == (if c in entrada then entrada[c] else 0.0)
  {
    TodosCampos();
    map c | c in Campos :: if c in entrada then entrada[c] else 0.0
  }

  /** The buckets holding a negative value. */
  function Negativos(d: map<Campo, real>): (n: set<Campo>)
    requires forall c :: c in d
    ensures forall c :: c in n <==> c in Baldes && d[c] < 0.0
  {
    set c | c in Baldes && d[c] < 0.0
  }

  /** The four buckets added up. */
  function Soma(d: map<Campo, real>): real
    requires forall c :: c in d
  {
    d[QtdOk] + d[QtdPerda] + d[QtdExtravio] + d[QtdDevolvida]
  }

  /**
   * `clean` as written: negative buckets get an error and leave the cleaned
   * data; then, for an existing line, the sum reads all four buckets back and
   * fails with a `KeyError` when one of them was removed.
   */
  function RecebimentoComoEscrito(entrada: map<Campo, real>, prevista: Option<real>): (r: Result<Limpeza>)
    ensures prevista.None? ==> r.Ok?
  {
    var d := ZerarVazios(entrada);
    var neg := Negativos(d);
    var semNeg := d - neg;
    if prevista.None? then Ok(Limpeza(semNeg, neg))
    else if neg != {} then Err("KeyError")
    else if Soma(d) > prevista.value then Ok(Limpeza(semNeg - {QtdOk}, {QtdOk}))
    else Ok(Limpeza(semNeg, {}))
  }

  /** One negative bucket on an existing line: the form crashes instead of reporting the field. */
  lemma RecebimentoNegativoQuebra()
    ensures RecebimentoComoEscrito(map[QtdPerda := -1.0], Some(10.0)).Err?
  {
    var d := ZerarVazios(map[QtdPerda := -1.0]);
    assert QtdPerda in Negativos(d);
  }

  /**
   * The intended checks: errors on the negative buckets, and on `qtd_ok` when
   * the zero-filled buckets add up to more than the expected quantity of an
   * existing line; fields with an error leave the cleaned data.
   */
  function RecebimentoCorrigido(entrada: map<Campo, real>, prevista: Option<real>): Limpeza
  {
    var d := ZerarVazios(entrada);
    var erros := Negativos(d) + (if prevista.Some? && Soma(d) > prevista.value then {QtdOk} else {});
    Limpeza(d - erros, erros)
  }

  /** The corrected form is valid exactly when no bucket is negative and the buckets fit the expected quantity. */
  lemma RecebimentoCorrigidoValido(entrada: map<Campo, real>, prevista: Option<real>)
    ensures var d := ZerarVazios(entrada);
      (RecebimentoCorrigido(entrada, prevista).erros == {}
       <==> (forall c :: c in Baldes ==> d[c] >= 0.0) && (prevista.None? || Soma(d) <= prevista.value))
  {
    var d := ZerarVazios(entrada);
    if RecebimentoCorrigido(entrada, prevista).erros == {} {
      forall c | c in Baldes ensures d[c] >= 0.0 {
        assert c !in Negativos(d);
      }
    }
  }

  /** Whenever the code as written does not crash, it returns what the corrected form returns. */
  lemma RecebimentoCorrigidoConcorda(entrada: map<Campo, real>, prevista: Option<real>)
    ensures RecebimentoComoEscrito(entrada, prevista).Ok? ==>
      RecebimentoComoEscrito(entrada, prevista).value == RecebimentoCorrigido(entrada, prevista)
  {
    var d := ZerarVazios(entrada);
    if prevista.Some? && Negativos(d) == {} {
      assert d - {} == d;
      assert Negativos(d) + {} == {};
    }
  }

  /** The first loop of `clean`: every field present, empty ones as 0. */
  method ZerarCampos(entrada: map<Campo, real>) returns (cleaned: map<Campo, real>)
    ensures cleaned == ZerarVazios(entrada)
  {
    cleaned := entrada;
    var i := 0;
    while i < |Campos|
      invariant i <= |Campos|
      invariant forall c :: c in cleaned <==> c in entrada || c in Campos[..i]
      invariant forall c :: c in cleaned ==> cleaned[c] == (if c in entrada then entrada[c] else 0.0)
    {
      if Campos[i] !in cleaned {
        cleaned := cleaned[Campos[i] := 0.0];
      }
      i := i + 1;
    }
    assert Campos[..i] == Campos;
  }

  /** The second loop of `clean`: the buckets holding a negative value. */
  method MarcarNegativos(cleaned: map<Campo, real>) returns (erros: set<Campo>)
    requires forall c :: c in cleaned
    ensures erros == Negativos(cleaned)
  {
    erros := {};
    var i := 0;
    while i < |Baldes|
      invariant i <= |Baldes|
      invariant forall c :: c in erros <==> c in Baldes[..i] && cleaned[c] < 0.0
    {
      if cleaned[Baldes[i]] < 0.0 {
        erros := erros + {Baldes[i]};
      }
      i := i + 1;
    }
    assert Baldes[..i] == Baldes;
  }

  /**
   * The receipt form's `clean` with the intended checks: fill empty fields
   * with 0, flag negative buckets, compare the sum with the expected quantity,
   * and drop every flagged field from the cleaned data.
   */
  method LimparRecebimento(entrada: map<Campo, real>, prevista: Option<real>) returns (r: Limpeza)
    ensures r == RecebimentoCorrigido(entrada, prevista)
  {
    var cleaned := ZerarCampos(entrada);
    var erros := MarcarNegativos(cleaned);
    if prevista.Some? {
      var soma := cleaned[QtdOk] + cleaned[QtdPerda] + cleaned[QtdExtravio] + cleaned[QtdDevolvida];
      if soma > prevista.value {
        erros := erros + {QtdOk};
      }
    }
    r := Limpeza(cleaned - erros, erros);
  }
}
