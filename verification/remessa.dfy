/**
 * Outsourced shipments (`Remessa`): pieces sent to a contractor
 * (`Costureira`) for cutting, sewing or correction, and the per-line
 * arithmetic and stock plans of their receipt. The stateful operations that
 * apply these plans to the tables are in module Fabrica.
 */
module Remessas {
  import opened Wrappers
  import opened Decimal
  import opened Estoque
  import opened Phase
  import opened Pedidos

  const Correcao := "CORRECAO"

  /** The three shipment kinds offered by the form. */
  const Tipos: set<string> := {Corte, Costura, Correcao}

  /** A contractor and her per-piece rates for each kind of work. */
  datatype Costureira = Costureira(nome: string, precoCorte: real, precoCostura: real, precoCorrecao: real)

  datatype StatusRemessa = Enviada | Parcial | Concluido | Cancelada

  /** A shipment header. `tipo` is kept as the posted text; `recebidoEm` is a timestamp. */
  datatype Remessa = Remessa(empresa: nat, costureira: nat, tipo: string, produto: Option<nat>,
                             kgEnviados: real, recebidoEm: Option<int>, status: StatusRemessa)

  /** A shipment line: planned pieces, the four return buckets, and an optional price (0 = contractor rate). */
  datatype RemessaItem = RemessaItem(variacao: nat, qtdPrevista: real, qtdOk: real, qtdPerda: real,
                                     qtdExtravio: real, qtdDevolvida: real, precoUnit: real)

  datatype StatusPagamento = Pendente | Pago

  /** The contractor payment of one shipment (`PagamentoCostureira`, one-to-one with the shipment). */
  datatype Pagamento = Pagamento(empresa: nat, costureira: nat, valorTotal: real,
                                 status: StatusPagamento, pagoEm: Option<int>)

  /** `pagamento_marcar_pago`: a payment not yet paid becomes paid now; a paid one is left as it is. */
  function ComoPago(pg: Pagamento, agora: int): (r: Pagamento)
    ensures r.status == Pago
    ensures pg.status == Pago ==> r == pg
    ensures pg.status != Pago ==> r.pagoEm == Some(agora)
    ensures r.valorTotal == pg.valorTotal && r.empresa == pg.empresa && r.costureira == pg.costureira
  {
    if pg.status != Pago then pg.(status := Pago, pagoEm := Some(agora)) else pg
  }

  /** `pagamento_marcar_pendente`: a paid payment goes back to pending and loses its payment date. */
  function ComoPendente(pg: Pagamento): (r: Pagamento)
    ensures r.status == Pendente
    ensures pg.status == Pendente ==> r == pg
    ensures pg.status != Pendente ==> r.pagoEm.None?
    ensures r.valorTotal == pg.valorTotal && r.empresa == pg.empresa && r.costureira == pg.costureira
  {
    if pg.status != Pendente then pg.(status := Pendente, pagoEm := None) else pg
  }

  /** Marking a payment paid twice is marking it once; marking it pending after paid gives a pending row without date. */
  lemma MarcacoesDePagamento(pg: Pagamento, t1: int, t2: int)
    ensures ComoPago(ComoPago(pg, t1), t2) == ComoPago(pg, t1)
    ensures ComoPendente(ComoPago(pg, t1)) == pg.(status := Pendente, pagoEm := None)
    ensures pg.status == Pendente ==> ComoPendente(ComoPago(pg, t1)) == pg.(pagoEm := None)
  {
  }

  /** No two lines of a shipment share a variant (the (shipment, variant) pair is unique). */
  predicate VariantesDistintas(itens: seq<RemessaItem>)
  {
    forall a, b :: 0 <= a < b < |itens| ==> itens[a].variacao != itens[b].variacao
  }

  /** The header of the shipment `gerar_remessa_posterior` chains: same company and product, no weight, sent, not received. */
  function Sucessora(rem: Remessa, tipo: string, costureira: Option<nat>): (r: Remessa)
    ensures r.empresa == rem.empresa && r.produto == rem.produto && r.tipo == tipo
    ensures r.costureira == (if costureira.Some? then costureira.value else rem.costureira)
    ensures r.kgEnviados == 0.0 && r.recebidoEm.None? && r.status == Enviada
  {
    Remessa(rem.empresa, if costureira.Some? then costureira.value else rem.costureira, tipo, rem.produto, 0.0, None, Enviada)
  }

  /** Pieces of the line that came back in any bucket. */
  function Consumido(it: RemessaItem): real
  {
    it.qtdOk + it.qtdPerda + it.qtdExtravio + it.qtdDevolvida
  }

  /** `RemessaItem.saldo`: pieces still missing, rounded to cents; negative when more came back than planned. */
  function Saldo(it: RemessaItem): (r: real)
    ensures OnGrid(r, Cents)
    ensures -0.5 <= Scaled(r - (it.qtdPrevista - Consumido(it)), Cents) <= 0.5
  {
    Quantize(it.qtdPrevista - Consumido(it), Cents)
  }

  /** Quantities stored in two-decimal columns. */
  predicate ItemEmCentavos(it: RemessaItem)
  {
    OnGrid(it.qtdPrevista, Cents) && OnGrid(it.qtdOk, Cents) && OnGrid(it.qtdPerda, Cents)
    && OnGrid(it.qtdExtravio, Cents) && OnGrid(it.qtdDevolvida, Cents)
  }

  /** For quantities stored with two decimals the balance is exact: planned minus returned. */
  lemma SaldoExato(it: RemessaItem)
    requires ItemEmCentavos(it)
    ensures Saldo(it) == it.qtdPrevista - Consumido(it)
  {
    OnGridAddSub(it.qtdOk, it.qtdPerda, Cents);
    OnGridAddSub(it.qtdOk + it.qtdPerda, it.qtdExtravio, Cents);
    OnGridAddSub(it.qtdOk + it.qtdPerda + it.qtdExtravio, it.qtdDevolvida, Cents);
    OnGridAddSub(it.qtdPrevista, Consumido(it), Cents);
    QuantizeOnGrid(it.qtdPrevista - Consumido(it), Cents);
  }

  /** Over-returns are not clipped: 10 planned and 12 good pieces leave a balance of -2. */
  lemma SaldoPodeSerNegativo(it: RemessaItem)
    requires it == RemessaItem(0, 10.0, 12.0, 0.0, 0.0, 0.0, 0.0)
    ensures Saldo(it) == -2.0
  {
    OnGridInt(10, Cents);
    OnGridInt(12, Cents);
    OnGridInt(0, Cents);
    SaldoExato(it);
  }

  /**
   * `Remessa.preco_base_para_tipo`: the contractor's rate for the shipment
   * kind; any kind other than CORTE and COSTURA is paid at the correction rate.
   */
  function PrecoBaseParaTipo(c: Costureira, tipo: string): (p: real)
    ensures tipo == Corte ==> p == c.precoCorte
    ensures tipo == Costura ==> p == c.precoCostura
    ensures tipo != Corte && tipo != Costura ==> p == c.precoCorrecao
  {
    if tipo == Corte then c.precoCorte
    else if tipo == Costura then c.precoCostura
    else c.precoCorrecao
  }

  /** `RemessaItem.preco_unitario_efetivo`: a non-zero line price overrides the contractor rate. */
  function PrecoUnitarioEfetivo(it: RemessaItem, base: real): (p: real)
    ensures it.precoUnit != 0.0 ==> p == it.precoUnit
    ensures it.precoUnit == 0.0 ==> p == base
  {
    if it.precoUnit != 0.0 then it.precoUnit else base
  }

  /** `RemessaItem.a_pagar`: effective price times good pieces, rounded to cents. */
  function APagar(it: RemessaItem, base: real): (v: real)
    ensures OnGrid(v, Cents)
    ensures -0.5 <= Scaled(v - PrecoUnitarioEfetivo(it, base) * it.qtdOk, Cents) <= 0.5
  {
    Quantize(PrecoUnitarioEfetivo(it, base) * it.qtdOk, Cents)
  }

  /** Sum of the line balances, the quantity `atualizar_status_por_itens` looks at. */
  function SaldoTotal(itens: seq<RemessaItem>): real
  {
    if itens == [] then 0.0 else SaldoTotal(itens[..|itens| - 1]) + Saldo(itens[|itens| - 1])
  }

  /**
   * `Remessa.atualizar_status_por_itens`: ENVIADA until the receipt date is
   * set, then PARCIAL while pieces are missing and CONCLUIDO otherwise. It
   * never yields CANCELADA, so it overwrites a cancellation.
   */
  function StatusPorItens(recebidoEm: Option<int>, itens: seq<RemessaItem>): (s: StatusRemessa)
    ensures s != Cancelada
    ensures s == Enviada <==> recebidoEm.None?
    ensures s == Parcial <==> recebidoEm.Some? && SaldoTotal(itens) > 0.0
    ensures s == Concluido <==> recebidoEm.Some? && SaldoTotal(itens) <= 0.0
  {
    if recebidoEm.Some? && SaldoTotal(itens) > 0.0 then Parcial
    else if recebidoEm.Some? then Concluido
    else Enviada
  }

  /** The amount `finalizar_recebimento` pays: effective price times good pieces, over lines with good pieces. */
  function TotalPagamento(itens: seq<RemessaItem>, base: real): real
  {
    if itens == [] then 0.0
    else
      var it := itens[|itens| - 1];
      TotalPagamento(itens[..|itens| - 1], base) + (if it.qtdOk > 0.0 then PrecoUnitarioEfetivo(it, base) * it.qtdOk else 0.0)
  }

  /** The running total of `finalizar_recebimento`'s loop: lines without good pieces are skipped. */
  method TotalizarPagamento(itens: seq<RemessaItem>, base: real) returns (total: real)
    ensures total == TotalPagamento(itens, base)
  {
    total := 0.0;
    var k := 0;
    while k < |itens|
      invariant 0 <= k <= |itens|
      invariant total == TotalPagamento(itens[..k], base)
    {
      assert itens[..k + 1][..k] == itens[..k];
      var it := itens[k];
      if it.qtdOk > 0.0 {
        total := total + PrecoUnitarioEfetivo(it, base) * it.qtdOk;
      }
      k := k + 1;
    }
    assert itens[..k] == itens;
  }

  /** With non-negative rates and line prices the payment total is never negative. */
  lemma {:induction false} TotalPagamentoNaoNegativo(itens: seq<RemessaItem>, base: real)
    requires base >= 0.0 && forall k :: 0 <= k < |itens| ==> itens[k].precoUnit >= 0.0
    ensures TotalPagamento(itens, base) >= 0.0
  {
    if itens != [] {
      TotalPagamentoNaoNegativo(itens[..|itens| - 1], base);
      var it := itens[|itens| - 1];
      assert it.precoUnit >= 0.0;
      assert PrecoUnitarioEfetivo(it, base) >= 0.0;
      if it.qtdOk > 0.0 {
        assert PrecoUnitarioEfetivo(it, base) * it.qtdOk >= 0.0;
      }
    }
  }

  /** A shipment whose lines brought no good piece back pays nothing. */
  lemma {:induction false} TotalPagamentoSemPecasBoas(itens: seq<RemessaItem>, base: real)
    requires forall k :: 0 <= k < |itens| ==> itens[k].qtdOk <= 0.0
    ensures TotalPagamento(itens, base) == 0.0
  {
    if itens != [] {
      TotalPagamentoSemPecasBoas(itens[..|itens| - 1], base);
    }
  }

  /** The technical sheet of a variant; a variant without one consumes nothing. */
  function FichaDe(ficha: map<nat, seq<FichaItem>>, v: nat): seq<FichaItem>
  {
    if v in ficha then ficha[v] else []
  }

  /** Category name of a material, as the phase resolver reads it. */
  function CategoriaDe(ins: map<nat, Insumo>, i: nat): string
  {
    if i in ins then ins[i].categoria else ""
  }

  /** The issue of one sheet line for `ok` pieces, rounded to four decimals. */
  function BaixaDaFicha(fi: FichaItem, ok: real): Efeito
  {
    Baixa(fi.insumo, Quantize(fi.quantidade * ok, TenThousandths))
  }

  /** Issues of the sheet lines whose resolved phase is `fase`, in sheet order. */
  function BaixasDaFase(fase: string, fs: seq<FichaItem>, ins: map<nat, Insumo>, ok: real): seq<Efeito>
  {
    if fs == [] then []
    else
      var fi := fs[|fs| - 1];
      BaixasDaFase(fase, fs[..|fs| - 1], ins, ok)
        + (if ResolverFase(CategoriaDe(ins, fi.insumo), fi.fase) == fase then [BaixaDaFicha(fi, ok)] else [])
  }

  /**
   * The stock effects of one received line: nothing for a line without good
   * pieces; for CORTE the CORTE-phase issues; for COSTURA the COSTURA-phase
   * issues followed by the credit of the good pieces; nothing for any other kind.
   */
  function PlanoDoItem(tipo: string, it: RemessaItem, ficha: map<nat, seq<FichaItem>>, ins: map<nat, Insumo>): seq<Efeito>
  {
    if it.qtdOk <= 0.0 then []
    else if tipo == Corte then BaixasDaFase(Corte, FichaDe(ficha, it.variacao), ins, it.qtdOk)
    else if tipo == Costura then BaixasDaFase(Costura, FichaDe(ficha, it.variacao), ins, it.qtdOk) + [Credito(it.variacao, it.qtdOk)]
    else []
  }

  /** The stock effects of a whole receipt, line after line. */
  function PlanoRecebimento(tipo: string, itens: seq<RemessaItem>, ficha: map<nat, seq<FichaItem>>, ins: map<nat, Insumo>): seq<Efeito>
  {
    if itens == [] then []
    else PlanoRecebimento(tipo, itens[..|itens| - 1], ficha, ins) + PlanoDoItem(tipo, itens[|itens| - 1], ficha, ins)
  }

  /** The run of a receipt's plan over the given tables, with the shipment and its contractor on every movement. */
  function ExecucaoRecebimento(tipo: string, itens: seq<RemessaItem>, ficha: map<nat, seq<FichaItem>>,
                               ins: map<nat, Insumo>, vars: map<nat, Variacao>, costureira: nat, remessa: nat): Execucao
    requires FichasSobre(ficha, ins.Keys)
    requires forall k :: 0 <= k < |itens| ==> itens[k].variacao in vars
  {
    RecebimentoAplicavel(tipo, itens, ficha, ins, vars);
    Executar(ins, vars, PlanoRecebimento(tipo, itens, ficha, ins), Some(costureira), Some(remessa))
  }

  /** Every issue of a phase plan comes from a sheet line of that phase, for the given number of pieces. */
  lemma {:induction false} BaixasDaFaseOrigem(fase: string, fs: seq<FichaItem>, ins: map<nat, Insumo>, ok: real)
    ensures forall k :: 0 <= k < |BaixasDaFase(fase, fs, ins, ok)| ==> DaFase(fase, fs, ins, ok, BaixasDaFase(fase, fs, ins, ok)[k])
  {
    if fs != [] {
      var init := fs[..|fs| - 1];
      var fi := fs[|fs| - 1];
      BaixasDaFaseOrigem(fase, init, ins, ok);
      var p := BaixasDaFase(fase, fs, ins, ok);
      var pi := BaixasDaFase(fase, init, ins, ok);
      assert p == pi + (if ResolverFase(CategoriaDe(ins, fi.insumo), fi.fase) == fase then [BaixaDaFicha(fi, ok)] else []);
      forall k | 0 <= k < |p|
        ensures DaFase(fase, fs, ins, ok, p[k])
      {
        if k < |pi| {
          assert p[k] == pi[k];
          var j :| 0 <= j < |init| && ResolverFase(CategoriaDe(ins, init[j].insumo), init[j].fase) == fase
            && pi[k] == BaixaDaFicha(init[j], ok);
          assert fs[j] == init[j];
        } else {
          assert p[k] == BaixaDaFicha(fi, ok);
          assert fs[|fs| - 1] == fi;
        }
      }
    }
  }

  /** An effect is the issue, for `ok` pieces, of some sheet line whose resolved phase is `fase`. */
  predicate DaFase(fase: string, fs: seq<FichaItem>, ins: map<nat, Insumo>, ok: real, ef: Efeito)
  {
    exists j :: 0 <= j < |fs| && ResolverFase(CategoriaDe(ins, fs[j].insumo), fs[j].fase) == fase && ef == BaixaDaFicha(fs[j], ok)
  }

  /** The issues of the first sheet lines are the beginning of the phase plan. */
  lemma {:induction false} BaixasDaFasePrefixo(fase: string, fs: seq<FichaItem>, j: nat, ins: map<nat, Insumo>, ok: real)
    requires j <= |fs|
    ensures BaixasDaFase(fase, fs[..j], ins, ok) <= BaixasDaFase(fase, fs, ins, ok)
    decreases |fs|
  {
    if j < |fs| {
      var init := fs[..|fs| - 1];
      assert fs[..j] == init[..j];
      BaixasDaFasePrefixo(fase, init, j, ins, ok);
    } else {
      assert fs[..j] == fs;
    }
  }

  /** The plan of the first lines of a receipt is the beginning of the whole receipt's plan. */
  lemma {:induction false} PlanoRecebimentoPrefixo(tipo: string, itens: seq<RemessaItem>, k: nat,
                                                   ficha: map<nat, seq<FichaItem>>, ins: map<nat, Insumo>)
    requires k <= |itens|
    ensures PlanoRecebimento(tipo, itens[..k], ficha, ins) <= PlanoRecebimento(tipo, itens, ficha, ins)
    decreases |itens|
  {
    if k < |itens| {
      var init := itens[..|itens| - 1];
      assert itens[..k] == init[..k];
      PlanoRecebimentoPrefixo(tipo, init, k, ficha, ins);
    } else {
      assert itens[..k] == itens;
    }
  }

  /** The sheets only name existing materials. */
  predicate FichasSobre(ficha: map<nat, seq<FichaItem>>, ids: set<nat>)
  {
    forall v :: v in ficha ==> forall k :: 0 <= k < |ficha[v]| ==> ficha[v][k].insumo in ids
  }

  /** A receipt's plan only names existing rows when the sheets and the lines do. */
  lemma {:induction false} RecebimentoAplicavel(tipo: string, itens: seq<RemessaItem>, ficha: map<nat, seq<FichaItem>>,
                                                ins: map<nat, Insumo>, vars: map<nat, Variacao>)
    requires FichasSobre(ficha, ins.Keys)
    requires forall k :: 0 <= k < |itens| ==> itens[k].variacao in vars
    ensures Aplicavel(ins, vars, PlanoRecebimento(tipo, itens, ficha, ins))
  {
    if itens != [] {
      var init := itens[..|itens| - 1];
      var it := itens[|itens| - 1];
      RecebimentoAplicavel(tipo, init, ficha, ins, vars);
      var p := PlanoRecebimento(tipo, init, ficha, ins);
      var d := PlanoDoItem(tipo, it, ficha, ins);
      var fs := FichaDe(ficha, it.variacao);
      BaixasDaFaseOrigem(tipo, fs, ins, it.qtdOk);
      var b := BaixasDaFase(tipo, fs, ins, it.qtdOk);
      assert Aplicavel(ins, vars, b) by {
        forall k | 0 <= k < |b| ensures b[k].Baixa? && b[k].insumo in ins {
          assert DaFase(tipo, fs, ins, it.qtdOk, b[k]);
          var j :| 0 <= j < |fs| && ResolverFase(CategoriaDe(ins, fs[j].insumo), fs[j].fase) == tipo && b[k] == BaixaDaFicha(fs[j], it.qtdOk);
          assert it.variacao in ficha;
        }
      }
      assert Aplicavel(ins, vars, d);
      forall k | 0 <= k < |p + d|
        ensures ((p + d)[k].Baixa? ==> (p + d)[k].insumo in ins) && ((p + d)[k].Credito? ==> (p + d)[k].variacao in vars)
      {
        if k < |p| {
          assert (p + d)[k] == p[k];
        } else {
          assert (p + d)[k] == d[k - |p|];
        }
      }
    }
  }

  /** Every sheet line of the phase contributes its issue to the phase plan. */
  lemma {:induction false} BaixasDaFaseCompleta(fase: string, fs: seq<FichaItem>, ins: map<nat, Insumo>, ok: real, j: nat)
    requires j < |fs| && ResolverFase(CategoriaDe(ins, fs[j].insumo), fs[j].fase) == fase
    ensures BaixaDaFicha(fs[j], ok) in BaixasDaFase(fase, fs, ins, ok)
  {
    var init := fs[..|fs| - 1];
    if j < |fs| - 1 {
      assert fs[j] == init[j];
      BaixasDaFaseCompleta(fase, init, ins, ok, j);
    }
  }

  /** A phase plan only issues materials, so it credits nothing. */
  lemma {:induction false} BaixasDaFaseNaoCreditam(fase: string, fs: seq<FichaItem>, ins: map<nat, Insumo>, ok: real, v: nat)
    ensures Creditado(BaixasDaFase(fase, fs, ins, ok), v) == 0.0
  {
    if fs != [] {
      var init := fs[..|fs| - 1];
      var fi := fs[|fs| - 1];
      BaixasDaFaseNaoCreditam(fase, init, ins, ok, v);
      CreditadoConcat(BaixasDaFase(fase, init, ins, ok),
        if ResolverFase(CategoriaDe(ins, fi.insumo), fi.fase) == fase then [BaixaDaFicha(fi, ok)] else [], v);
    }
  }

  /** Credits of a concatenation add up. */
  lemma {:induction false} CreditadoConcat(p: seq<Efeito>, q: seq<Efeito>, v: nat)
    ensures Creditado(p + q, v) == Creditado(p, v) + Creditado(q, v)
  {
    if q == [] {
      assert p + q == p;
    } else {
      var init := q[..|q| - 1];
      assert (p + q)[..|p + q| - 1] == p + init;
      assert (p + q)[|p + q| - 1] == q[|q| - 1];
      CreditadoConcat(p, init, v);
    }
  }

  /** Good pieces of the lines of one variant, counting only lines with good pieces. */
  function PecasBoasDe(itens: seq<RemessaItem>, v: nat): real
  {
    if itens == [] then 0.0
    else
      var it := itens[|itens| - 1];
      PecasBoasDe(itens[..|itens| - 1], v) + (if it.variacao == v && it.qtdOk > 0.0 then it.qtdOk else 0.0)
  }

  /**
   * Finished stock: a COSTURA receipt credits each variant with exactly the
   * good pieces of its lines; any other kind credits nothing.
   */
  lemma {:induction false} RecebimentoCredita(tipo: string, itens: seq<RemessaItem>, ficha: map<nat, seq<FichaItem>>,
                                              ins: map<nat, Insumo>, v: nat)
    ensures Creditado(PlanoRecebimento(tipo, itens, ficha, ins), v) == if tipo == Costura then PecasBoasDe(itens, v) else 0.0
  {
    if itens != [] {
      var init := itens[..|itens| - 1];
      var it := itens[|itens| - 1];
      RecebimentoCredita(tipo, init, ficha, ins, v);
      CreditadoConcat(PlanoRecebimento(tipo, init, ficha, ins), PlanoDoItem(tipo, it, ficha, ins), v);
      if it.qtdOk > 0.0 && (tipo == Corte || tipo == Costura) {
        BaixasDaFaseNaoCreditam(tipo, FichaDe(ficha, it.variacao), ins, it.qtdOk, v);
        if tipo == Costura {
          var b := BaixasDaFase(Costura, FichaDe(ficha, it.variacao), ins, it.qtdOk);
          CreditadoConcat(b, [Credito(it.variacao, it.qtdOk)], v);
          assert Creditado([Credito(it.variacao, it.qtdOk)], v) == if it.variacao == v then it.qtdOk else 0.0 by {
            assert [Credito(it.variacao, it.qtdOk)][..0] == [];
          }
        }
      }
    }
  }

  /** A correction shipment (or any kind outside CORTE/COSTURA) has no stock effect at all. */
  lemma {:induction false} CorrecaoNaoMexeNoEstoque(tipo: string, itens: seq<RemessaItem>, ficha: map<nat, seq<FichaItem>>,
                                                    ins: map<nat, Insumo>)
    requires tipo != Corte && tipo != Costura
    ensures PlanoRecebimento(tipo, itens, ficha, ins) == []
  {
    if itens != [] {
      CorrecaoNaoMexeNoEstoque(tipo, itens[..|itens| - 1], ficha, ins);
    }
  }

  /** Lines without good pieces are skipped: they add no effect to the plan. */
  lemma {:induction false} ItensSemPecasBoasIgnorados(tipo: string, itens: seq<RemessaItem>, it: RemessaItem,
                                                      ficha: map<nat, seq<FichaItem>>, ins: map<nat, Insumo>)
    requires it.qtdOk <= 0.0
    ensures PlanoRecebimento(tipo, itens + [it], ficha, ins) == PlanoRecebimento(tipo, itens, ficha, ins)
  {
    assert (itens + [it])[..|itens|] == itens;
  }

  /**
   * The lines of the shipment that `gerar_remessa_posterior` chains: one per
   * source line, same variant, planned = the source's good pieces (zero
   * included), return buckets and price 0.
   */
  function ItensSucessores(itens: seq<RemessaItem>): (r: seq<RemessaItem>)
    ensures |r| == |itens|
    ensures forall k :: 0 <= k < |r| ==> r[k].variacao == itens[k].variacao && r[k].qtdPrevista == itens[k].qtdOk
    ensures forall k :: 0 <= k < |r| ==> Consumido(r[k]) == 0.0 && r[k].precoUnit == 0.0
  {
    if itens == [] then []
    else ItensSucessores(itens[..|itens| - 1]) + [RemessaItem(itens[|itens| - 1].variacao, itens[|itens| - 1].qtdOk, 0.0, 0.0, 0.0, 0.0, 0.0)]
  }

  /**
   * The kind `remessa_generate_next` asks for: the posted kind when there is
   * one, else COSTURA after a CORTE shipment; otherwise nothing is generated.
   */
  function ProximoTipo(tipoPostado: string, tipoAtual: string): (r: Option<string>)
    ensures r.None? <==> tipoPostado == "" && tipoAtual != Corte
    ensures tipoPostado != "" ==> r == Some(tipoPostado)
    ensures tipoPostado == "" && tipoAtual == Corte ==> r == Some(Costura)
  {
    if tipoPostado != "" then Some(tipoPostado)
    else if tipoAtual == Corte then Some(Costura)
    else None
  }

  /**
   * The kind `pedido_gerar_remessa` uses: the posted kind (trimmed) when it is
   * one of the three, else an arbitrary one of them (the first element of a
   * Python set, which depends on string hashing), passed in as `qualquer`.
   */
  function TipoParaPedido(tipoPostado: string, qualquer: string): (r: string)
    requires qualquer in Tipos
    ensures r in Tipos
    ensures Text.Strip(tipoPostado) in Tipos ==> r == Text.Strip(tipoPostado)
  {
    var t := Text.Strip(tipoPostado);
    if t in Tipos then t else qualquer
  }

  /** Lines `pedido_gerar_remessa` creates: one per order line with a positive quantity, at price 0. */
  function ItensDoPedido(itens: seq<ItemPedido>): (r: seq<RemessaItem>)
    ensures |r| <= |itens|
    ensures forall k :: 0 <= k < |r| ==> r[k].qtdPrevista > 0.0 && r[k].precoUnit == 0.0 && Consumido(r[k]) == 0.0
  {
    if itens == [] then []
    else
      var it := itens[|itens| - 1];
      ItensDoPedido(itens[..|itens| - 1])
        + (if it.quantidade > 0.0 then [RemessaItem(it.variacao, it.quantidade, 0.0, 0.0, 0.0, 0.0, 0.0)] else [])
  }

  /**
   * What `pedido_gerar_remessa` makes of an order's lines: no shipment for an
   * order without lines or without a positive one, the unique-variant error
   * when two positive lines share a variant, else the shipment's lines.
   */
  function PlanoDoPedido(itens: seq<ItemPedido>): (r: Result<Option<seq<RemessaItem>>>)
    ensures r.Err? <==> ItensDoPedido(itens) != [] && !VariantesDistintas(ItensDoPedido(itens))
    ensures r == Ok(None) <==> ItensDoPedido(itens) == []
    ensures r.Ok? && r.value.Some? ==>
      r.value.value == ItensDoPedido(itens) && r.value.value != [] && VariantesDistintas(r.value.value)
  {
    if itens == [] then Ok(None)
    else
      var linhas := ItensDoPedido(itens);
      if linhas == [] then Ok(None)
      else if !VariantesDistintas(linhas) then Err("IntegrityError")
      else Ok(Some(linhas))
  }

  /** The shipment lines are the order lines with a positive quantity, in order. */
  lemma {:induction false} ItensDoPedidoSaoOsPositivos(itens: seq<ItemPedido>)
    ensures |ItensDoPedido(itens)| == |Positivos(itens)|
    ensures forall k :: 0 <= k < |Positivos(itens)| ==>
      ItensDoPedido(itens)[k].variacao == Positivos(itens)[k].variacao
      && ItensDoPedido(itens)[k].qtdPrevista == Positivos(itens)[k].quantidade
  {
    if itens != [] {
      ItensDoPedidoSaoOsPositivos(itens[..|itens| - 1]);
    }
  }

  /** The order lines with a positive quantity, in order. */
  function Positivos(itens: seq<ItemPedido>): seq<ItemPedido>
  {
    if itens == [] then []
    else Positivos(itens[..|itens| - 1]) + (if itens[|itens| - 1].quantidade > 0.0 then [itens[|itens| - 1]] else [])
  }
}
