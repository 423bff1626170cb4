/**
 * The factory database: materials, variants, technical sheets, the movement
 * log, contractors, shipments with their lines, and contractor payments, as
 * tables (maps from id to row) of one object. Its methods are the model
 * methods and views that change these tables: material entries and issues,
 * production orders, the receipt of a shipment, chaining and generating
 * shipments, payment toggles, invoicing an order and creating variants.
 */
module Fabrica {
  import opened Wrappers
  import opened Decimal
  import opened Estoque
  import opened Phase
  import opened Remessas
  import Pedidos
  import opened Faturamento
  import opened Catalogo
  import opened Text
  import Formularios

  /** The issues of a production order of q pieces: each sheet line times q, rounded to four decimals. */
  function PlanoOP(fs: seq<FichaItem>, q: real): (p: seq<Efeito>)
    ensures |p| == |fs|
    ensures forall k :: 0 <= k < |fs| ==> p[k] == BaixaOP(fs[k], q)
  {
    if fs == [] then []
    else
      var p := PlanoOP(fs[..|fs| - 1], q) + [BaixaOP(fs[|fs| - 1], q)];
      assert forall k :: 0 <= k < |fs| - 1 ==> fs[..|fs| - 1][k] == fs[k];
      p
  }

  /** The issue of one sheet line for q pieces. */
  function BaixaOP(fi: FichaItem, q: real): Efeito
  {
    Baixa(fi.insumo, Quantize(fi.quantidade * q, TenThousandths))
  }

  /** A variant after a production order of q pieces at unit cost cu. */
  function Produzida(x: Variacao, q: real, cu: real): (y: Variacao)
    ensures y.estoque == x.estoque + q && y.custoUnitario == cu
    ensures y.sku == x.sku && y.produto == x.produto && y.tipo == x.tipo && y.precoSugerido == x.precoSugerido
  {
    x.(custoUnitario := cu, estoque := x.estoque + q)
  }

  /** A production order only issues materials, and only those its sheet names. */
  lemma PlanoOPAplicavel(fs: seq<FichaItem>, q: real, ins: map<nat, Insumo>, vars: map<nat, Variacao>)
    requires forall k :: 0 <= k < |fs| ==> fs[k].insumo in ins
    ensures Aplicavel(ins, vars, PlanoOP(fs, q))
    ensures forall k :: 0 <= k < |fs| ==> PlanoOP(fs, q)[k].Baixa?
  {
    var plano := PlanoOP(fs, q);
    forall k | 0 <= k < |plano| ensures plano[k].Baixa? && plano[k].insumo in ins {
      assert plano[k] == BaixaOP(fs[k], q);
    }
  }

  /** Unit cost of a production order: (materials + labour + overhead) / q, rounded to four decimals. */
  function CustoOP(materiais: real, maoDeObra: real, indireto: real, q: real): (c: real)
    requires q != 0.0
    ensures OnGrid(c, TenThousandths)
    ensures -0.5 <= Scaled(c - (materiais + maoDeObra + indireto) / q, TenThousandths) <= 0.5
  {
    Quantize((materiais + maoDeObra + indireto) / q, TenThousandths)
  }

  /** The shipment after its receipt: the receipt date set if asked and unset, the status recomputed from the lines. */
  function Recebida(rem: Remessa, itens: seq<RemessaItem>, agora: int, setRecebidoEm: bool): (r: Remessa)
    ensures r.recebidoEm.Some? <==> rem.recebidoEm.Some? || setRecebidoEm
    ensures rem.recebidoEm.Some? ==> r.recebidoEm == rem.recebidoEm
    ensures r.status == StatusPorItens(r.recebidoEm, itens)
    ensures r.(recebidoEm := rem.recebidoEm, status := rem.status) == rem
  {
    var rec := if setRecebidoEm && rem.recebidoEm.None? then Some(agora) else rem.recebidoEm;
    rem.(recebidoEm := rec, status := StatusPorItens(rec, itens))
  }

  /**
   * The payment row the receipt upserts: amount rounded to cents, status
   * PENDENTE, and the payment date of the existing row kept (none for a new row).
   */
  function PagamentoDoRecebimento(rem: Remessa, total: real, anterior: Option<Pagamento>): (p: Pagamento)
    ensures p.status == Pendente && OnGrid(p.valorTotal, Cents)
    ensures -0.5 <= Scaled(p.valorTotal - total, Cents) <= 0.5
    ensures p.empresa == rem.empresa && p.costureira == rem.costureira
    ensures p.pagoEm == (if anterior.Some? then anterior.value.pagoEm else None)
  {
    Pagamento(rem.empresa, rem.costureira, Quantize(total, Cents), Pendente,
              if anterior.Some? then anterior.value.pagoEm else None)
  }

  /** What identifies a variant: its SKU, and its product and kind. */
  datatype Identidade = Identidade(sku: string, produto: nat, tipo: string)

  function Identidades(vars: map<nat, Variacao>): map<nat, Identidade>
  {
    map v | v in vars :: Identidade(vars[v].sku, vars[v].produto, vars[v].tipo)
  }

  /** No two variants share a SKU, nor a (product, kind) pair. */
  predicate Unicas(ids: map<nat, Identidade>)
  {
    forall a, b :: a in ids && b in ids && a != b ==>
      ids[a].sku != ids[b].sku && (ids[a].produto != ids[b].produto || ids[a].tipo != ids[b].tipo)
  }

  /** Changing a variant's stock or cost leaves the identities as they were. */
  lemma IdentidadesMesmaChave(vars: map<nat, Variacao>, v: nat, x: Variacao)
    requires v in vars
    requires x.sku == vars[v].sku && x.produto == vars[v].produto && x.tipo == vars[v].tipo
    ensures Identidades(vars[v := x]) == Identidades(vars)
  {
  }

  /** The reconciliation of the tables with the log, given each row's opening stock. */
  ghost predicate ConciliadoEm(ins: map<nat, Insumo>, vars: map<nat, Variacao>, log: seq<Movimento>,
                               abI: map<nat, real>, abV: map<nat, real>)
  {
    ins.Keys == abI.Keys && vars.Keys == abV.Keys
    && (forall i :: i in ins ==> ins[i].estoque == abI[i] + Liquido(log, DoInsumo(i)))
    && (forall v :: v in vars ==> vars[v].estoque == abV[v] + Liquido(log, DaVariacao(v)))
    && LogSobre(log, ins.Keys, vars.Keys)
  }

  /** A material row changed by a movement's signed quantity, logged with that movement, stays reconciled. */
  lemma ConciliaInsumo(ins: map<nat, Insumo>, vars: map<nat, Variacao>, log: seq<Movimento>,
                       abI: map<nat, real>, abV: map<nat, real>, i: nat, m: Insumo, mv: Movimento)
    requires ConciliadoEm(ins, vars, log, abI, abV) && i in ins
    requires mv.alvo == DoInsumo(i) && m.estoque == ins[i].estoque + Sinal(mv)
    ensures ConciliadoEm(ins[i := m], vars, log + [mv], abI, abV)
  {
    forall j | j in ins ensures ins[i := m][j].estoque == abI[j] + Liquido(log + [mv], DoInsumo(j)) {
      LiquidoAppend(log, mv, DoInsumo(j));
    }
    forall v | v in vars ensures vars[v].estoque == abV[v] + Liquido(log + [mv], DaVariacao(v)) {
      LiquidoAppend(log, mv, DaVariacao(v));
    }
    assert (log + [mv])[|log|] == mv;
    assert forall k :: 0 <= k < |log| ==> (log + [mv])[k] == log[k];
  }

  /** A variant row changed by a movement's signed quantity, logged with that movement, stays reconciled. */
  lemma ConciliaVariacao(ins: map<nat, Insumo>, vars: map<nat, Variacao>, log: seq<Movimento>,
                         abI: map<nat, real>, abV: map<nat, real>, v: nat, x: Variacao, mv: Movimento)
    requires ConciliadoEm(ins, vars, log, abI, abV) && v in vars
    requires mv.alvo == DaVariacao(v) && x.estoque == vars[v].estoque + Sinal(mv)
    ensures ConciliadoEm(ins, vars[v := x], log + [mv], abI, abV)
  {
    forall j | j in ins ensures ins[j].estoque == abI[j] + Liquido(log + [mv], DoInsumo(j)) {
      LiquidoAppend(log, mv, DoInsumo(j));
    }
    forall w | w in vars ensures vars[v := x][w].estoque == abV[w] + Liquido(log + [mv], DaVariacao(w)) {
      LiquidoAppend(log, mv, DaVariacao(w));
    }
    assert (log + [mv])[|log|] == mv;
    assert forall k :: 0 <= k < |log| ==> (log + [mv])[k] == log[k];
  }

  /**
   * A run of a plan over reconciled tables, written back with its movements
   * appended to the log, leaves them reconciled and the variants' identities unchanged.
   */
  lemma ConciliaExecucao(ins: map<nat, Insumo>, vars: map<nat, Variacao>, log: seq<Movimento>,
                         abI: map<nat, real>, abV: map<nat, real>, plano: seq<Efeito>,
                         costureira: Option<nat>, remessa: Option<nat>)
    requires ConciliadoEm(ins, vars, log, abI, abV) && Aplicavel(ins, vars, plano)
    ensures var e := Executar(ins, vars, plano, costureira, remessa);
      ConciliadoEm(e.insumos, e.variacoes, log + e.log, abI, abV) && Identidades(e.variacoes) == Identidades(vars)
  {
    var e := Executar(ins, vars, plano, costureira, remessa);
    ExecutarReconcilia(ins, vars, plano, costureira, remessa);
    ConciliaResultado(ins, vars, log, abI, abV, e);
    ExecutarIdentidades(ins, vars, plano, costureira, remessa);
  }

  /** Tables reconciled with a log, moved as a run's own log records, are reconciled with both logs. */
  lemma ConciliaResultado(ins: map<nat, Insumo>, vars: map<nat, Variacao>, log: seq<Movimento>,
                          abI: map<nat, real>, abV: map<nat, real>, e: Execucao)
    requires ConciliadoEm(ins, vars, log, abI, abV)
    requires e.insumos.Keys == ins.Keys && e.variacoes.Keys == vars.Keys
    requires forall i :: i in ins ==> e.insumos[i].estoque == ins[i].estoque + Liquido(e.log, DoInsumo(i))
    requires forall v :: v in vars ==> e.variacoes[v].estoque == vars[v].estoque + Liquido(e.log, DaVariacao(v))
    requires LogSobre(e.log, ins.Keys, vars.Keys)
    ensures ConciliadoEm(e.insumos, e.variacoes, log + e.log, abI, abV)
  {
    LogSobreConcat(log, e.log, ins.Keys, vars.Keys);
    InsumosConcat(ins, e.insumos, abI, log, e.log);
    VariacoesConcat(vars, e.variacoes, abV, log, e.log);
  }

  /** Material rows reconciled with a log, then moved as a second log records, are reconciled with both. */
  lemma InsumosConcat(ins: map<nat, Insumo>, depois: map<nat, Insumo>, abI: map<nat, real>,
                      log: seq<Movimento>, extra: seq<Movimento>)
    requires ins.Keys == abI.Keys && depois.Keys == ins.Keys
    requires forall i :: i in ins ==> ins[i].estoque == abI[i] + Liquido(log, DoInsumo(i))
    requires forall i :: i in ins ==> depois[i].estoque == ins[i].estoque + Liquido(extra, DoInsumo(i))
    ensures forall i :: i in depois ==> depois[i].estoque == abI[i] + Liquido(log + extra, DoInsumo(i))
  {
    forall i | i in depois ensures depois[i].estoque == abI[i] + Liquido(log + extra, DoInsumo(i)) {
      LiquidoConcat(log, extra, DoInsumo(i));
    }
  }

  /** Variant rows reconciled with a log, then moved as a second log records, are reconciled with both. */
  lemma VariacoesConcat(vars: map<nat, Variacao>, depois: map<nat, Variacao>, abV: map<nat, real>,
                        log: seq<Movimento>, extra: seq<Movimento>)
    requires vars.Keys == abV.Keys && depois.Keys == vars.Keys
    requires forall v :: v in vars ==> vars[v].estoque == abV[v] + Liquido(log, DaVariacao(v))
    requires forall v :: v in vars ==> depois[v].estoque == vars[v].estoque + Liquido(extra, DaVariacao(v))
    ensures forall v :: v in depois ==> depois[v].estoque == abV[v] + Liquido(log + extra, DaVariacao(v))
  {
    forall v | v in depois ensures depois[v].estoque == abV[v] + Liquido(log + extra, DaVariacao(v)) {
      LiquidoConcat(log, extra, DaVariacao(v));
    }
  }

  /** A run changes only stocks, so the variants' identities are unchanged. */
  lemma ExecutarIdentidades(ins: map<nat, Insumo>, vars: map<nat, Variacao>, plano: seq<Efeito>,
                            costureira: Option<nat>, remessa: Option<nat>)
    requires Aplicavel(ins, vars, plano)
    ensures Identidades(Executar(ins, vars, plano, costureira, remessa).variacoes) == Identidades(vars)
  {
    var e := Executar(ins, vars, plano, costureira, remessa);
    ExecutarSoEstoque(ins, vars, plano, costureira, remessa);
    forall v | v in vars ensures Identidades(e.variacoes)[v] == Identidades(vars)[v] {
      assert e.variacoes[v] == vars[v].(estoque := e.variacoes[v].estoque);
    }
  }

  /**
   * Foreign keys and uniqueness: sheets name materials; shipments name
   * contractors, have their lines, and ids below the next id; lines name
   * variants; payments belong to shipments; variant identities are unique and
   * their ids below the next id.
   */
  predicate ReferenciasEm(ficha: map<nat, seq<FichaItem>>, insumos: set<nat>, ids: map<nat, Identidade>,
                          costureiras: set<nat>, remessas: map<nat, Remessa>, itens: map<nat, seq<RemessaItem>>,
                          pagamentos: set<nat>, proximaRemessa: nat, proximaVariacao: nat)
  {
    FichasSobre(ficha, insumos)
    && remessas.Keys == itens.Keys
    && (forall r :: r in remessas ==> r < proximaRemessa && remessas[r].costureira in costureiras)
    && (forall r :: r in itens ==> VariantesDistintas(itens[r]) && forall k :: 0 <= k < |itens[r]| ==> itens[r][k].variacao in ids)
    && pagamentos <= remessas.Keys
    && Unicas(ids)
    && (forall v :: v in ids ==> v < proximaVariacao)
  }

  /** Tables with no movement yet are reconciled with their own stocks as opening stocks, and hold no shipment. */
  lemma Abertura(ins: map<nat, Insumo>, vars: map<nat, Variacao>, ficha: map<nat, seq<FichaItem>>,
                 costureiras: set<nat>, proximaVariacao: nat)
    requires FichasSobre(ficha, ins.Keys) && Unicas(Identidades(vars))
    requires forall v :: v in vars ==> v < proximaVariacao
    ensures ConciliadoEm(ins, vars, [], map i | i in ins :: ins[i].estoque, map v | v in vars :: vars[v].estoque)
    ensures ReferenciasEm(ficha, ins.Keys, Identidades(vars), costureiras, map[], map[], {}, 0, proximaVariacao)
  {
  }

  /** Replacing a shipment header by one for the same contractor keeps the references. */
  lemma ReferenciasTrocaRemessa(ficha: map<nat, seq<FichaItem>>, insumos: set<nat>, ids: map<nat, Identidade>,
                                costureiras: set<nat>, remessas: map<nat, Remessa>, itens: map<nat, seq<RemessaItem>>,
                                pagamentos: set<nat>, proximaRemessa: nat, proximaVariacao: nat, rid: nat, x: Remessa)
    requires ReferenciasEm(ficha, insumos, ids, costureiras, remessas, itens, pagamentos, proximaRemessa, proximaVariacao)
    requires rid in remessas && x.costureira == remessas[rid].costureira
    ensures ReferenciasEm(ficha, insumos, ids, costureiras, remessas[rid := x], itens, pagamentos, proximaRemessa, proximaVariacao)
  {
    assert remessas[rid := x].Keys == remessas.Keys;
  }

  /** A new shipment under the next id, for an existing contractor, with distinct existing variants, keeps the references. */
  lemma ReferenciasNovaRemessa(ficha: map<nat, seq<FichaItem>>, insumos: set<nat>, ids: map<nat, Identidade>,
                               costureiras: set<nat>, remessas: map<nat, Remessa>, itens: map<nat, seq<RemessaItem>>,
                               pagamentos: set<nat>, proximaRemessa: nat, proximaVariacao: nat,
                               x: Remessa, linhas: seq<RemessaItem>)
    requires ReferenciasEm(ficha, insumos, ids, costureiras, remessas, itens, pagamentos, proximaRemessa, proximaVariacao)
    requires x.costureira in costureiras && VariantesDistintas(linhas)
    requires forall k :: 0 <= k < |linhas| ==> linhas[k].variacao in ids
    ensures proximaRemessa !in remessas
    ensures ReferenciasEm(ficha, insumos, ids, costureiras, remessas[proximaRemessa := x], itens[proximaRemessa := linhas],
                          pagamentos, proximaRemessa + 1, proximaVariacao)
  {
  }

  /** The positive lines of an order name existing variants when all its lines do. */
  lemma {:induction false} PositivosSobre(itens: seq<Pedidos.ItemPedido>, vars: map<nat, Variacao>)
    requires Sobre(itens, vars)
    ensures Sobre(Positivos(itens), vars)
  {
    if itens != [] {
      PositivosSobre(itens[..|itens| - 1], vars);
    }
  }

  /** The shipment lines made from an order name existing variants when the order lines do. */
  lemma LinhasDoPedidoSobre(itens: seq<Pedidos.ItemPedido>, vars: map<nat, Variacao>)
    requires Sobre(itens, vars)
    ensures forall k :: 0 <= k < |ItensDoPedido(itens)| ==> ItensDoPedido(itens)[k].variacao in vars
  {
    ItensDoPedidoSaoOsPositivos(itens);
    PositivosSobre(itens, vars);
  }

  /** The header `pedido_gerar_remessa` creates: the order's company, no weight, sent, not received. */
  function DoPedido(empresa: nat, costureira: nat, tipo: string, produto: Option<nat>): (r: Remessa)
    ensures r.empresa == empresa && r.costureira == costureira && r.tipo == tipo && r.produto == produto
    ensures r.kgEnviados == 0.0 && r.recebidoEm.None? && r.status == Enviada
  {
    Remessa(empresa, costureira, tipo, produto, 0.0, None, Enviada)
  }

  /** The log of an invoicing run only names variants. */
  lemma SaidasSobre(itens: seq<Pedidos.ItemPedido>, vars: map<nat, Variacao>, i: nat)
    requires Sobre(itens, vars)
    ensures Liquido(SaidasFaturamento(itens, vars), DoInsumo(i)) == 0.0
    ensures LogSobre(SaidasFaturamento(itens, vars), {}, vars.Keys)
  {
    LiquidoSemMovimento(SaidasFaturamento(itens, vars), DoInsumo(i));
  }

  /** Invoicing does not change the variants' identities. */
  lemma IdentidadesExpedido(vars: map<nat, Variacao>, itens: seq<Pedidos.ItemPedido>)
    requires Sobre(itens, vars)
    ensures Identidades(Expedido(vars, itens)) == Identidades(vars)
  {
    ExpedidoBaixaDemanda(vars, itens);
    var w := Expedido(vars, itens);
    forall v | v in vars ensures Identidades(w)[v] == Identidades(vars)[v] {
      assert w[v] == Expedida(vars[v], Demanda(itens, v));
    }
  }

  /** Writing back an invoicing run with its movements keeps the tables reconciled. */
  lemma ConciliaFaturamento(ins: map<nat, Insumo>, vars: map<nat, Variacao>, log: seq<Movimento>,
                            abI: map<nat, real>, abV: map<nat, real>, itens: seq<Pedidos.ItemPedido>)
    requires ConciliadoEm(ins, vars, log, abI, abV) && Sobre(itens, vars)
    ensures ConciliadoEm(ins, Expedido(vars, itens), log + SaidasFaturamento(itens, vars), abI, abV)
  {
    var w := Expedido(vars, itens);
    var saidas := SaidasFaturamento(itens, vars);
    ExpedidoConcilia(vars, itens);
    forall i | i in ins ensures ins[i].estoque == abI[i] + Liquido(log + saidas, DoInsumo(i)) {
      LiquidoConcat(log, saidas, DoInsumo(i));
      SaidasSobre(itens, vars, i);
    }
    forall v | v in w ensures w[v].estoque == abV[v] + Liquido(log + saidas, DaVariacao(v)) {
      LiquidoConcat(log, saidas, DaVariacao(v));
    }
    SaidasSobre(itens, vars, 0);
    LogSobreAmplia(saidas, {}, vars.Keys, ins.Keys, vars.Keys);
    LogSobreConcat(log, saidas, ins.Keys, vars.Keys);
  }

  /** Runs the order lines one after the other over the variants, collecting their movements. */
  method ExpedirValores(vars: map<nat, Variacao>, itens: seq<Pedidos.ItemPedido>)
    returns (w: map<nat, Variacao>, saidas: seq<Movimento>)
    requires Sobre(itens, vars)
    ensures w == Expedido(vars, itens) && saidas == SaidasFaturamento(itens, vars)
  {
    w, saidas := vars, [];
    var k := 0;
    while k < |itens|
      invariant 0 <= k <= |itens|
      invariant w == Expedido(vars, itens[..k]) && saidas == SaidasFaturamento(itens[..k], vars)
    {
      ExpedidoPasso(vars, itens, k);
      var v := itens[k].variacao;
      saidas := saidas + [Movimento(Saida, DaVariacao(v), itens[k].quantidade, w[v].custoUnitario, None, None)];
      w := w[v := Expedida(w[v], itens[k].quantidade)];
      k := k + 1;
    }
    assert itens[..k] == itens;
  }

  /** The SKUs in use. */
  function Skus(vars: map<nat, Variacao>): set<string>
  {
    set v | v in vars :: vars[v].sku
  }

  /** The kinds the product's variants have. */
  function TiposDe(vars: map<nat, Variacao>, produto: nat): set<string>
  {
    set v | v in vars && vars[v].produto == produto :: vars[v].tipo
  }

  /** Some variant of the product has this kind. */
  predicate TemTipo(vars: map<nat, Variacao>, produto: nat, tipo: string)
  {
    tipo in TiposDe(vars, produto)
  }

  /** A variant with a SKU no other variant uses and a (product, kind) pair no other has keeps the identities unique. */
  lemma UnicasComNova(vars: map<nat, Variacao>, v: nat, x: Variacao)
    requires Unicas(Identidades(vars)) && v !in vars
    requires x.sku !in Skus(vars) && !TemTipo(vars, x.produto, x.tipo)
    ensures Unicas(Identidades(vars[v := x]))
    ensures Skus(vars[v := x]) == Skus(vars) + {x.sku}
  {
    var novo := Identidade(x.sku, x.produto, x.tipo);
    var ids := Identidades(vars[v := x]);
    assert ids == Identidades(vars)[v := novo];
    forall a, b | a in ids && b in ids && a != b
      ensures ids[a].sku != ids[b].sku && (ids[a].produto != ids[b].produto || ids[a].tipo != ids[b].tipo)
    {
      if a == v {
        assert ids[b] == Identidades(vars)[b] && vars[b].sku in Skus(vars);
        assert vars[b].produto == x.produto ==> vars[b].tipo in TiposDe(vars, x.produto);
      } else if b == v {
        assert ids[a] == Identidades(vars)[a] && vars[a].sku in Skus(vars);
        assert vars[a].produto == x.produto ==> vars[a].tipo in TiposDe(vars, x.produto);
      } else {
        assert ids[a] == Identidades(vars)[a] && ids[b] == Identidades(vars)[b];
      }
    }
    forall s | s in Skus(vars[v := x]) ensures s in Skus(vars) + {x.sku} {
      var u :| u in vars[v := x] && vars[v := x][u].sku == s;
      if u != v {
        assert vars[u].sku == s;
      }
    }
    forall s | s in Skus(vars) + {x.sku} ensures s in Skus(vars[v := x]) {
      if s != x.sku {
        var u :| u in vars && vars[u].sku == s;
        assert vars[v := x][u].sku == s;
      } else {
        assert vars[v := x][v].sku == s;
      }
    }
  }

  /** A new row under the next id, with a free SKU and a free (product, kind) pair, keeps ids and identities in order. */
  lemma NovaLinha(vars: map<nat, Variacao>, prox: nat, x: Variacao, w: map<nat, Variacao>)
    requires Unicas(Identidades(vars)) && forall v :: v in Identidades(vars) ==> v < prox
    requires x.sku !in Skus(vars) && !TemTipo(vars, x.produto, x.tipo)
    requires w == vars[prox := x]
    ensures prox !in vars && Unicas(Identidades(w))
    ensures forall v :: v in w ==> v < prox + 1
  {
    assert forall v :: v in vars ==> v in Identidades(vars);
    UnicasComNova(vars, prox, x);
  }

  /**
   * w is vars with new rows only: unique identities, ids in [proxima, prox),
   * each new row a kind of ts the product lacked, created empty at price preco.
   */
  ghost predicate Estende(vars: map<nat, Variacao>, proxima: nat, w: map<nat, Variacao>, prox: nat,
                          produto: nat, preco: real, ts: seq<string>)
  {
    Unicas(Identidades(w)) && proxima <= prox && (forall v :: v in w ==> v < prox)
    && vars.Keys <= w.Keys && (forall v :: v in vars ==> w[v] == vars[v])
    && (forall v :: v in w && v !in vars ==>
          proxima <= v && CriadaParaTipo(w[v], produto, preco) && w[v].tipo in ts && !TemTipo(vars, produto, w[v].tipo))
  }

  /** The rows as they are extend themselves: nothing created yet. */
  lemma EstendeInicial(vars: map<nat, Variacao>, proxima: nat, produto: nat, preco: real, ts: seq<string>)
    requires Unicas(Identidades(vars)) && forall v :: v in vars ==> v < proxima
    ensures Estende(vars, proxima, vars, proxima, produto, preco, ts)
  {
  }

  /** One more kind created under the next id extends the rows and covers that kind. */
  lemma EstendePasso(vars: map<nat, Variacao>, proxima: nat, w: map<nat, Variacao>, prox: nat,
                     produto: nat, preco: real, ts: seq<string>, tipo: string, sku: string)
    requires Estende(vars, proxima, w, prox, produto, preco, ts)
    requires tipo in ts && !TemTipo(w, produto, tipo) && sku !in Skus(w)
    ensures var w2 := w[prox := Variacao(produto, tipo, sku, 0.0, 0.0, preco)];
      Estende(vars, proxima, w2, prox + 1, produto, preco, ts)
      && TiposDe(w2, produto) == TiposDe(w, produto) + {tipo}
      && w2.Keys - vars.Keys == (w.Keys - vars.Keys) + {prox} && prox !in w.Keys - vars.Keys
  {
    var x := Variacao(produto, tipo, sku, 0.0, 0.0, preco);
    UnicasComNova(w, prox, x);
    TiposDeComNova(w, prox, x);
    TiposDeCrescem(vars, w, produto);
  }

  /** A new row of the product under a fresh id adds exactly its kind to the product's kinds. */
  lemma TiposDeComNova(w: map<nat, Variacao>, v: nat, x: Variacao)
    requires v !in w
    ensures TiposDe(w[v := x], x.produto) == TiposDe(w, x.produto) + {x.tipo}
  {
    var w2 := w[v := x];
    assert w2[v].produto == x.produto && w2[v].tipo == x.tipo;
    forall t | t in TiposDe(w, x.produto) ensures t in TiposDe(w2, x.produto) {
      var u :| u in w && w[u].produto == x.produto && w[u].tipo == t;
      assert w2[u] == w[u];
    }
    forall t | t in TiposDe(w2, x.produto) ensures t in TiposDe(w, x.produto) + {x.tipo} {
      var u :| u in w2 && w2[u].produto == x.produto && w2[u].tipo == t;
      if u != v {
        assert w[u] == w2[u];
      }
    }
  }

  /** Rows kept unchanged keep their kinds. */
  lemma TiposDeCrescem(vars: map<nat, Variacao>, w: map<nat, Variacao>, produto: nat)
    requires vars.Keys <= w.Keys && forall v :: v in vars ==> w[v] == vars[v]
    ensures TiposDe(vars, produto) <= TiposDe(w, produto)
  {
    forall t | t in TiposDe(vars, produto) ensures t in TiposDe(w, produto) {
      var u :| u in vars && vars[u].produto == produto && vars[u].tipo == t;
      assert w[u] == vars[u];
    }
  }

  /** Opening stocks for a table that gained rows: the old openings, and a new row's stock as its own opening. */
  function AberturaCom(abV: map<nat, real>, vars: map<nat, Variacao>, w: map<nat, Variacao>): (r: map<nat, real>)
    ensures r.Keys == w.Keys
  {
    map v | v in w :: if v in vars && v in abV then abV[v] else w[v].estoque
  }

  /** New variant rows, with no movement logged yet, keep the tables reconciled when their stock is their opening. */
  lemma ConciliaNovasVariacoes(ins: map<nat, Insumo>, vars: map<nat, Variacao>, w: map<nat, Variacao>,
                               log: seq<Movimento>, abI: map<nat, real>, abV: map<nat, real>)
    requires ConciliadoEm(ins, vars, log, abI, abV)
    requires vars.Keys <= w.Keys && forall v :: v in vars ==> w[v] == vars[v]
    ensures ConciliadoEm(ins, w, log, abI, AberturaCom(abV, vars, w))
  {
    var ab := AberturaCom(abV, vars, w);
    forall v | v in w ensures w[v].estoque == ab[v] + Liquido(log, DaVariacao(v)) {
      if v !in vars {
        LiquidoSemMovimento(log, DaVariacao(v));
      }
    }
  }

  /** New variant rows with ids below the next id and unique identities keep the references. */
  lemma ReferenciasNovasVariacoes(ficha: map<nat, seq<FichaItem>>, insumos: set<nat>, vars: map<nat, Variacao>,
                                  w: map<nat, Variacao>, costureiras: set<nat>, remessas: map<nat, Remessa>,
                                  itens: map<nat, seq<RemessaItem>>, pagamentos: set<nat>, proximaRemessa: nat,
                                  proximaVariacao: nat, novaProxima: nat)
    requires ReferenciasEm(ficha, insumos, Identidades(vars), costureiras, remessas, itens, pagamentos, proximaRemessa, proximaVariacao)
    requires vars.Keys <= w.Keys && Unicas(Identidades(w)) && forall v :: v in w ==> v < novaProxima
    ensures ReferenciasEm(ficha, insumos, Identidades(w), costureiras, remessas, itens, pagamentos, proximaRemessa, novaProxima)
  {
    forall r, k | r in itens && 0 <= k < |itens[r]| ensures itens[r][k].variacao in Identidades(w) {
      assert itens[r][k].variacao in Identidades(vars);
    }
  }

  /** A variant as `ensure_variacoes_para_tipos` creates it: no stock, no cost, the given suggested price. */
  predicate CriadaParaTipo(x: Variacao, produto: nat, preco: real)
  {
    x.produto == produto && x.estoque == 0.0 && x.custoUnitario == 0.0 && x.precoSugerido == preco
  }

  /** `tipos or ["Padrão"]`. */
  function TiposEfetivos(tipos: seq<string>): (r: seq<string>)
    ensures r != []
  {
    if tipos == [] then ["Padrão"] else tipos
  }

  /** The SKU base of `ensure_variacoes_para_tipos`: product id and kind, upper-cased, spaces removed. */
  function BaseDoTipo(produto: nat, tipo: string): (r: string)
    ensures ' ' !in r
  {
    RemoveChar(Upper(NatToString(produto) + "-" + tipo), ' ')
  }

  /** One kind of `ensure_variacoes_para_tipos`: a new row under the next id when the product lacks the kind. */
  method CriarTipo(vars: map<nat, Variacao>, proxima: nat, w: map<nat, Variacao>, prox: nat,
                   produto: nat, preco: real, ts: seq<string>, tipo: string)
    returns (w2: map<nat, Variacao>, prox2: nat, criada: bool)
    requires Estende(vars, proxima, w, prox, produto, preco, ts) && tipo in ts
    ensures Estende(vars, proxima, w2, prox2, produto, preco, ts)
    ensures criada <==> !TemTipo(w, produto, tipo)
    ensures TiposDe(w, produto) <= TiposDe(w2, produto) && TemTipo(w2, produto, tipo)
    ensures |w2.Keys - vars.Keys| == |w.Keys - vars.Keys| + (if criada then 1 else 0)
  {
    if TemTipo(w, produto, tipo) {
      return w, prox, false;
    }
    var sku := GerarSkuUnico(BaseDoTipo(produto, tipo), Skus(w), None);
    EstendePasso(vars, proxima, w, prox, produto, preco, ts, tipo, sku);
    w2, prox2, criada := w[prox := Variacao(produto, tipo, sku, 0.0, 0.0, preco)], prox + 1, true;
  }

  /** The product has a variant of every kind in ts. */
  ghost predicate Cobre(vars: map<nat, Variacao>, produto: nat, ts: seq<string>)
  {
    forall t :: t in ts ==> TemTipo(vars, produto, t)
  }

  /** The kinds covered before one more kind is made present stay covered, and that kind is covered too. */
  lemma CobrePasso(w: map<nat, Variacao>, w2: map<nat, Variacao>, produto: nat, ts: seq<string>, k: nat)
    requires k < |ts| && Cobre(w, produto, ts[..k])
    requires TiposDe(w, produto) <= TiposDe(w2, produto) && TemTipo(w2, produto, ts[k])
    ensures Cobre(w2, produto, ts[..k + 1])
  {
    assert ts[..k + 1] == ts[..k] + [ts[k]];
  }

  /**
   * `ensure_variacoes_para_tipos` on the variant rows: every listed kind the
   * product lacks gets one new row, under a fresh id, with a SKU picked by
   * the search over the SKUs in use; returns the rows and the count created.
   */
  method CriarTipos(vars: map<nat, Variacao>, proxima: nat, produto: nat, tipos: seq<string>, preco: real)
    returns (w: map<nat, Variacao>, prox: nat, criadas: nat)
    requires Unicas(Identidades(vars)) && forall v :: v in vars ==> v < proxima
    ensures Estende(vars, proxima, w, prox, produto, preco, TiposEfetivos(tipos))
    ensures Cobre(w, produto, TiposEfetivos(tipos))
    ensures criadas == |w.Keys - vars.Keys|
  {
    var ts := TiposEfetivos(tipos);
    EstendeInicial(vars, proxima, produto, preco, ts);
    w, prox, criadas := vars, proxima, 0;
    assert w.Keys - vars.Keys == {};
    var k := 0;
    while k < |ts|
      invariant 0 <= k <= |ts|
      invariant Estende(vars, proxima, w, prox, produto, preco, ts)
      invariant Cobre(w, produto, ts[..k])
      invariant criadas == |w.Keys - vars.Keys|
    {
      w, prox, criadas := PassoTipos(vars, proxima, w, prox, criadas, produto, preco, ts, k);
      k := k + 1;
    }
    assert ts[..k] == ts;
  }

  /** One turn of the loop of `CriarTipos`: the kind at position k is made present and counted if created. */
  method PassoTipos(vars: map<nat, Variacao>, proxima: nat, w: map<nat, Variacao>, prox: nat, criadas: nat,
                    produto: nat, preco: real, ts: seq<string>, k: nat)
    returns (w2: map<nat, Variacao>, prox2: nat, criadas2: nat)
    requires k < |ts| && Estende(vars, proxima, w, prox, produto, preco, ts)
    requires Cobre(w, produto, ts[..k]) && criadas == |w.Keys - vars.Keys|
    ensures Estende(vars, proxima, w2, prox2, produto, preco, ts)
    ensures Cobre(w2, produto, ts[..k + 1]) && criadas2 == |w2.Keys - vars.Keys|
  {
    var criada;
    w2, prox2, criada := CriarTipo(vars, proxima, w, prox, produto, preco, ts, ts[k]);
    CobrePasso(w, w2, produto, ts, k);
    criadas2 := if criada then criadas + 1 else criadas;
  }

  /** The payment row of a shipment, if there is one. */
  function Anterior(pagamentos: map<nat, Pagamento>, rid: nat): (a: Option<Pagamento>)
    ensures a.Some? <==> rid in pagamentos
    ensures rid in pagamentos ==> a.value == pagamentos[rid]
  {
    if rid in pagamentos then Some(pagamentos[rid]) else None
  }

  class Fabrica {
    var insumos: map<nat, Insumo>
    var variacoes: map<nat, Variacao>
    var ficha: map<nat, seq<FichaItem>>
    var movimentos: seq<Movimento>
    var costureiras: map<nat, Costureira>
    var remessas: map<nat, Remessa>
    var itensRemessa: map<nat, seq<RemessaItem>>
    var pagamentos: map<nat, Pagamento>
    var proximaRemessa: nat
    var proximaVariacao: nat
    /** Stock of each row before the first logged movement. */
    ghost var aberturaInsumo: map<nat, real>
    ghost var aberturaVariacao: map<nat, real>

    /**
     * The tables are reconciled with the log (every row's stock is its opening
     * stock plus the net of the logged movements) and their references hold.
     */
    ghost predicate Valid()
      reads this
    {
      ConciliadoEm(insumos, variacoes, movimentos, aberturaInsumo, aberturaVariacao)
      && ReferenciasEm(ficha, insumos.Keys, Identidades(variacoes), costureiras.Keys, remessas, itensRemessa,
                       pagamentos.Keys, proximaRemessa, proximaVariacao)
    }

    /** A database holding the given rows, with no movement, shipment or payment yet. */
    constructor (insumos: map<nat, Insumo>, variacoes: map<nat, Variacao>, ficha: map<nat, seq<FichaItem>>,
                 costureiras: map<nat, Costureira>, proximaVariacao: nat)
      requires FichasSobre(ficha, insumos.Keys) && Unicas(Identidades(variacoes))
      requires forall v :: v in variacoes ==> v < proximaVariacao
      ensures Valid()
      ensures this.insumos == insumos && this.variacoes == variacoes && this.ficha == ficha && this.costureiras == costureiras
      ensures movimentos == [] && remessas == map[] && itensRemessa == map[] && pagamentos == map[]
    {
      var abI := map i | i in insumos :: insumos[i].estoque;
      var abV := map v | v in variacoes :: variacoes[v].estoque;
      Abertura(insumos, variacoes, ficha, costureiras.Keys, proximaVariacao);
      this.insumos := insumos;
      this.variacoes := variacoes;
      this.ficha := ficha;
      this.costureiras := costureiras;
      this.proximaVariacao := proximaVariacao;
      movimentos := [];
      remessas := map[];
      itensRemessa := map[];
      pagamentos := map[];
      proximaRemessa := 0;
      aberturaInsumo := abI;
      aberturaVariacao := abV;
    }

    /**
     * `Insumo.entrada`: stock grows by q, the average cost is re-weighted when
     * the new stock is positive, and one "E" movement valued at the incoming
     * unit cost (not the new average) is logged. q = 0 and negative q are accepted.
     */
    method EntradaInsumo(i: nat, q: real, c: real)
      requires Valid() && i in insumos
      modifies this`insumos, this`movimentos
      ensures Valid()
      ensures insumos == old(insumos)[i := AposEntrada(old(insumos)[i], q, c)]
      ensures movimentos == old(movimentos) + [Movimento(Entrada, DoInsumo(i), q, c, None, None)]
    {
      var mv := Movimento(Entrada, DoInsumo(i), q, c, None, None);
      TrocarInsumo(i, AposEntrada(insumos[i], q, c), mv);
    }

    /** Replaces one material row and logs the movement that explains its new stock. */
    method TrocarInsumo(i: nat, m: Insumo, mv: Movimento)
      requires Valid() && i in insumos
      requires mv.alvo == DoInsumo(i) && m.estoque == insumos[i].estoque + Sinal(mv)
      modifies this`insumos, this`movimentos
      ensures Valid()
      ensures insumos == old(insumos)[i := m] && movimentos == old(movimentos) + [mv]
    {
      ConciliaInsumo(insumos, variacoes, movimentos, aberturaInsumo, aberturaVariacao, i, m, mv);
      insumos := insumos[i := m];
      movimentos := movimentos + [mv];
    }

    /**
     * `Insumo.saida`: refused, with nothing changed, when q exceeds the stock;
     * otherwise the stock drops by exactly q, the average is kept and one "S"
     * movement valued at the average cost is logged.
     */
    method SaidaInsumo(i: nat, q: real, costureira: Option<nat>, remessa: Option<nat>) returns (r: Result<()>)
      requires Valid() && i in insumos
      modifies this`insumos, this`movimentos
      ensures Valid()
      ensures r.Err? <==> Falta(old(insumos)[i], q)
      ensures r.Err? ==> insumos == old(insumos) && movimentos == old(movimentos)
      ensures r.Ok? ==> (insumos == old(insumos)[i := AposSaida(old(insumos)[i], q)]
        && movimentos == old(movimentos) + [Movimento(Saida, DoInsumo(i), q, old(insumos)[i].custoMedio, costureira, remessa)])
    {
      var m := insumos[i];
      if Falta(m, q) {
        return Err("Estoque insuficiente para saída.");
      }
      var mv := Movimento(Saida, DoInsumo(i), q, m.custoMedio, costureira, remessa);
      TrocarInsumo(i, AposSaida(m, q), mv);
      r := Ok(());
    }

    /**
     * `OrdemProducao.processar` for q pieces of variant v: issues every sheet
     * line (each `Insumo.saida` on its own, with no transaction, so a shortage
     * leaves the earlier issues applied and stops), then, for q != 0, sets the
     * variant's unit cost to the rounded cost per piece, credits q pieces and
     * logs one "E" movement at that cost; q = 0 fails after the issues
     * (division by zero).
     */
    method Processar(v: nat, q: real, maoDeObra: real, indireto: real) returns (r: Result<real>)
      requires Valid() && v in variacoes
      modifies this`insumos, this`variacoes, this`movimentos
      ensures Valid()
      ensures var e := Executar(old(insumos), old(variacoes), PlanoOP(FichaDe(old(ficha), v), q), None, None);
        insumos == e.insumos
        && (e.falhou || q == 0.0 ==> r.Err? && variacoes == old(variacoes) && movimentos == old(movimentos) + e.log)
        && (!e.falhou && q != 0.0 ==>
              r == Ok(CustoOP(e.custo, maoDeObra, indireto, q))
              && variacoes == old(variacoes)[v := Produzida(old(variacoes)[v], q, r.value)]
              && movimentos == old(movimentos) + e.log + [Movimento(Entrada, DaVariacao(v), q, r.value, None, None)])
    {
      var fs := FichaDe(ficha, v);
      var plano := PlanoOP(fs, q);
      PlanoOPAplicavel(fs, q, insumos, variacoes);
      SoBaixasMantemVariacoes(insumos, variacoes, plano, None, None);
      var e := ExecutarPlano(insumos, variacoes, plano, None, None);
      Gravar(plano, e, None, None);
      if e.falhou {
        return Err("Estoque insuficiente para saída.");
      }
      if q == 0.0 {
        return Err("divisão por zero");
      }
      var cu := CustoOP(e.custo, maoDeObra, indireto, q);
      Produzir(v, q, cu);
      r := Ok(cu);
    }

    /** The variant side of a finished production order: new unit cost, q more pieces, one "E" movement at that cost. */
    method Produzir(v: nat, q: real, cu: real)
      requires Valid() && v in variacoes
      modifies this`variacoes, this`movimentos
      ensures Valid()
      ensures variacoes == old(variacoes)[v := Produzida(old(variacoes)[v], q, cu)]
      ensures movimentos == old(movimentos) + [Movimento(Entrada, DaVariacao(v), q, cu, None, None)]
    {
      var x := Produzida(variacoes[v], q, cu);
      var mv := Movimento(Entrada, DaVariacao(v), q, cu, None, None);
      TrocarVariacao(v, x, mv);
    }

    /** Replaces one variant row, keeping its identity, and logs the movement that explains its new stock. */
    method TrocarVariacao(v: nat, x: Variacao, mv: Movimento)
      requires Valid() && v in variacoes
      requires x.sku == variacoes[v].sku && x.produto == variacoes[v].produto && x.tipo == variacoes[v].tipo
      requires mv.alvo == DaVariacao(v) && x.estoque == variacoes[v].estoque + Sinal(mv)
      modifies this`variacoes, this`movimentos
      ensures Valid()
      ensures variacoes == old(variacoes)[v := x] && movimentos == old(movimentos) + [mv]
    {
      ConciliaVariacao(insumos, variacoes, movimentos, aberturaInsumo, aberturaVariacao, v, x, mv);
      IdentidadesMesmaChave(variacoes, v, x);
      variacoes := variacoes[v := x];
      movimentos := movimentos + [mv];
    }

    /** Writes a run of a plan back to the tables: the rows as the run left them, its movements appended to the log. */
    method Gravar(ghost plano: seq<Efeito>, e: Execucao, costureira: Option<nat>, remessa: Option<nat>)
      requires Valid() && Aplicavel(insumos, variacoes, plano)
      requires e == Executar(insumos, variacoes, plano, costureira, remessa)
      modifies this`insumos, this`variacoes, this`movimentos
      ensures Valid()
      ensures insumos == e.insumos && variacoes == e.variacoes && movimentos == old(movimentos) + e.log
    {
      ConciliaExecucao(insumos, variacoes, movimentos, aberturaInsumo, aberturaVariacao, plano, costureira, remessa);
      insumos := e.insumos;
      variacoes := e.variacoes;
      movimentos := movimentos + e.log;
    }

    /**
     * `Remessa.finalizar_recebimento`, one transaction: runs the receipt plan
     * (CORTE/COSTURA issues per good line, COSTURA credits) with the shipment
     * and its contractor on every movement; on a shortage nothing is written.
     * Otherwise the tables take the run's result, the shipment its receipt
     * date and recomputed status, and, when the amount due is positive, the
     * shipment's payment is created or updated and returned.
     */
    method FinalizarRecebimento(rid: nat, agora: int, setRecebidoEm: bool) returns (r: Result<Option<Pagamento>>)
      requires Valid() && rid in remessas
      modifies this`insumos, this`variacoes, this`movimentos, this`remessas, this`pagamentos
      ensures Valid()
      ensures var rem := old(remessas)[rid];
        var e := ExecucaoRecebimento(rem.tipo, old(itensRemessa)[rid], old(ficha), old(insumos), old(variacoes), rem.costureira, rid);
        (e.falhou ==> r.Err? && insumos == old(insumos) && variacoes == old(variacoes) && movimentos == old(movimentos)
                      && remessas == old(remessas) && pagamentos == old(pagamentos))
        && (!e.falhou ==> r.Ok? && insumos == e.insumos && variacoes == e.variacoes && movimentos == old(movimentos) + e.log
                          && remessas == old(remessas)[rid := Recebida(rem, old(itensRemessa)[rid], agora, setRecebidoEm)])
      ensures var rem := old(remessas)[rid];
        var total := TotalPagamento(old(itensRemessa)[rid], PrecoBaseParaTipo(old(costureiras)[rem.costureira], rem.tipo));
        r.Ok? ==>
          (total > 0.0 ==> pagamentos == old(pagamentos)[rid := PagamentoDoRecebimento(rem, total, Anterior(old(pagamentos), rid))]
                           && r.value == Some(pagamentos[rid]))
          && (total <= 0.0 ==> pagamentos == old(pagamentos) && r.value == None)
    {
      var rem := remessas[rid];
      var itens := itensRemessa[rid];
      var plano := PlanoRecebimento(rem.tipo, itens, ficha, insumos);
      RecebimentoAplicavel(rem.tipo, itens, ficha, insumos, variacoes);
      var e := ExecutarPlano(insumos, variacoes, plano, Some(rem.costureira), Some(rid));
      if e.falhou {
        return Err("Estoque insuficiente para saída.");
      }
      var total := TotalizarPagamento(itens, PrecoBaseParaTipo(costureiras[rem.costureira], rem.tipo));
      Gravar(plano, e, Some(rem.costureira), Some(rid));
      Receber(rid, Recebida(rem, itens, agora, setRecebidoEm));
      if total > 0.0 {
        var p := PagamentoDoRecebimento(rem, total, Anterior(pagamentos, rid));
        Pagar(rid, p);
        r := Ok(Some(p));
      } else {
        r := Ok(None);
      }
    }

    /** Stores a shipment's new header (same contractor). */
    method Receber(rid: nat, x: Remessa)
      requires Valid() && rid in remessas && x.costureira == remessas[rid].costureira
      modifies this`remessas
      ensures Valid()
      ensures remessas == old(remessas)[rid := x]
      ensures insumos == old(insumos) && variacoes == old(variacoes) && movimentos == old(movimentos)
    {
      ReferenciasTrocaRemessa(ficha, insumos.Keys, Identidades(variacoes), costureiras.Keys, remessas, itensRemessa,
                              pagamentos.Keys, proximaRemessa, proximaVariacao, rid, x);
      remessas := remessas[rid := x];
    }

    /** Creates or replaces the payment row of a shipment. */
    method Pagar(rid: nat, p: Pagamento)
      requires Valid() && rid in remessas
      modifies this`pagamentos
      ensures Valid()
      ensures pagamentos == old(pagamentos)[rid := p]
      ensures insumos == old(insumos) && variacoes == old(variacoes) && movimentos == old(movimentos)
      ensures remessas == old(remessas)
    {
      assert pagamentos[rid := p].Keys == pagamentos.Keys + {rid};
      pagamentos := pagamentos[rid := p];
    }

    /** Inserts a shipment and its lines under the next id. */
    method CriarRemessa(x: Remessa, linhas: seq<RemessaItem>) returns (id: nat)
      requires Valid() && x.costureira in costureiras && VariantesDistintas(linhas)
      requires forall k :: 0 <= k < |linhas| ==> linhas[k].variacao in variacoes
      modifies this`remessas, this`itensRemessa, this`proximaRemessa
      ensures Valid()
      ensures id == old(proximaRemessa) && id !in old(remessas) && proximaRemessa == id + 1
      ensures remessas == old(remessas)[id := x] && itensRemessa == old(itensRemessa)[id := linhas]
    {
      ReferenciasNovaRemessa(ficha, insumos.Keys, Identidades(variacoes), costureiras.Keys, remessas, itensRemessa,
                             pagamentos.Keys, proximaRemessa, proximaVariacao, x, linhas);
      id := proximaRemessa;
      remessas := remessas[id := x];
      itensRemessa := itensRemessa[id := linhas];
      proximaRemessa := id + 1;
    }

    /**
     * `Remessa.gerar_remessa_posterior`: a new shipment of the given kind for
     * the given contractor (this shipment's when none), one line per line of
     * this shipment with its good pieces as the planned quantity.
     */
    method GerarRemessaPosterior(rid: nat, tipo: string, costureira: Option<nat>) returns (novo: nat)
      requires Valid() && rid in remessas
      requires costureira.Some? ==> costureira.value in costureiras
      modifies this`remessas, this`itensRemessa, this`proximaRemessa
      ensures Valid()
      ensures novo == old(proximaRemessa) && novo !in old(remessas) && proximaRemessa == novo + 1
      ensures remessas == old(remessas)[novo := Sucessora(old(remessas)[rid], tipo, costureira)]
      ensures itensRemessa == old(itensRemessa)[novo := ItensSucessores(old(itensRemessa)[rid])]
    {
      var linhas := ItensSucessores(itensRemessa[rid]);
      novo := CriarRemessa(Sucessora(remessas[rid], tipo, costureira), linhas);
    }

    /**
     * `remessa_generate_next`: the next kind is the posted one, else COSTURA
     * after CORTE; without a kind nothing is created. A posted contractor id
     * must exist (404 otherwise); without one the shipment's contractor is kept.
     */
    method GerarProxima(rid: nat, tipoPostado: string, costureiraPostada: Option<nat>) returns (r: Result<nat>)
      requires Valid() && rid in remessas
      modifies this`remessas, this`itensRemessa, this`proximaRemessa
      ensures Valid()
      ensures var t := ProximoTipo(tipoPostado, old(remessas)[rid].tipo);
        (r.Err? <==> t.None? || (costureiraPostada.Some? && costureiraPostada.value !in costureiras))
        && (r.Err? ==> remessas == old(remessas) && itensRemessa == old(itensRemessa) && proximaRemessa == old(proximaRemessa))
        && (r.Ok? ==>
              (r.value == old(proximaRemessa)
               && remessas == old(remessas)[r.value := Sucessora(old(remessas)[rid], t.value, costureiraPostada)]
               && itensRemessa == old(itensRemessa)[r.value := ItensSucessores(old(itensRemessa)[rid])]))
    {
      var t := ProximoTipo(tipoPostado, remessas[rid].tipo);
      if t.None? {
        return Err("Tipo da próxima remessa não informado.");
      }
      if costureiraPostada.Some? && costureiraPostada.value !in costureiras {
        return Err("404");
      }
      var novo := GerarRemessaPosterior(rid, t.value, costureiraPostada);
      r := Ok(novo);
    }

    /** `pagamento_marcar_pago` for the payment of shipment rid (404 when it has none). */
    method MarcarPago(rid: nat, agora: int) returns (r: Result<()>)
      requires Valid()
      modifies this`pagamentos
      ensures Valid()
      ensures r.Err? <==> rid !in old(pagamentos)
      ensures r.Err? ==> pagamentos == old(pagamentos)
      ensures r.Ok? ==> pagamentos == old(pagamentos)[rid := ComoPago(old(pagamentos)[rid], agora)]
    {
      if rid !in pagamentos {
        return Err("404");
      }
      Pagar(rid, ComoPago(pagamentos[rid], agora));
      r := Ok(());
    }

    /** `pagamento_marcar_pendente` for the payment of shipment rid (404 when it has none). */
    method MarcarPendente(rid: nat) returns (r: Result<()>)
      requires Valid()
      modifies this`pagamentos
      ensures Valid()
      ensures r.Err? <==> rid !in old(pagamentos)
      ensures r.Err? ==> pagamentos == old(pagamentos)
      ensures r.Ok? ==> pagamentos == old(pagamentos)[rid := ComoPendente(old(pagamentos)[rid])]
    {
      if rid !in pagamentos {
        return Err("404");
      }
      Pagar(rid, ComoPendente(pagamentos[rid]));
      r := Ok(());
    }

    /**
     * `pedido_gerar_remessa` (POST), one transaction, with the kind the view
     * has already chosen by `TipoParaPedido`: the contractor must exist
     * (404); an order without lines creates nothing; otherwise a shipment with
     * one line per positive order line is created, and removed again when
     * there is none; two lines of the same variant break the (shipment,
     * variant) uniqueness and roll everything back.
     */
    method GerarRemessaDoPedido(p: Pedidos.Pedido, costureira: nat, tipo: string, produto: Option<nat>)
      returns (r: Result<Option<nat>>)
      requires Valid() && Sobre(p.itens, variacoes) && tipo in Tipos
      modifies this`remessas, this`itensRemessa, this`proximaRemessa
      ensures Valid()
      ensures r.Err? <==> costureira !in costureiras || PlanoDoPedido(p.itens).Err?
      ensures r.Ok? && r.value.Some? <==>
        costureira in costureiras && PlanoDoPedido(p.itens).Ok? && PlanoDoPedido(p.itens).value.Some?
      ensures r.Ok? && r.value.Some? ==>
        r.value.value == old(proximaRemessa)
        && remessas == old(remessas)[r.value.value := DoPedido(p.empresa, costureira, tipo, produto)]
        && itensRemessa == old(itensRemessa)[r.value.value := PlanoDoPedido(p.itens).value.value]
      ensures !(r.Ok? && r.value.Some?) ==>
        remessas == old(remessas) && itensRemessa == old(itensRemessa) && proximaRemessa == old(proximaRemessa)
    {
      var plano := PlanoDoPedido(p.itens);
      if costureira !in costureiras {
        r := Err("404");
      } else if plano.Err? {
        r := Err(plano.error);
      } else if plano.value.None? {
        r := Ok(None);
      } else {
        LinhasDoPedidoSobre(p.itens, variacoes);
        var novo := CriarRemessa(DoPedido(p.empresa, costureira, tipo, produto), plano.value.value);
        r := Ok(Some(novo));
      }
    }

    /** The variant side of one invoiced line: q pieces leave, logged at the variant's unit cost. */
    method Expedir(v: nat, q: real)
      requires Valid() && v in variacoes
      modifies this`variacoes, this`movimentos
      ensures Valid()
      ensures variacoes == old(variacoes)[v := Expedida(old(variacoes)[v], q)]
      ensures movimentos == old(movimentos) + [Movimento(Saida, DaVariacao(v), q, old(variacoes)[v].custoUnitario, None, None)]
    {
      var x := Expedida(variacoes[v], q);
      var mv := Movimento(Saida, DaVariacao(v), q, variacoes[v].custoUnitario, None, None);
      TrocarVariacao(v, x, mv);
    }

    /** The corrected stock check of `pedido_faturar`: every line's variant can cover what all its lines ask for. */
    method EstoqueSuficiente(itens: seq<Pedidos.ItemPedido>) returns (ok: bool)
      requires Sobre(itens, variacoes)
      ensures ok <==> !FaltaAgregada(itens, variacoes)
    {
      var k := 0;
      while k < |itens|
        invariant 0 <= k <= |itens|
        invariant forall j :: 0 <= j < k ==> variacoes[itens[j].variacao].estoque >= Demanda(itens, itens[j].variacao)
      {
        var v := itens[k].variacao;
        if variacoes[v].estoque < Demanda(itens, v) {
          return false;
        }
        k := k + 1;
      }
      return true;
    }

    /** The write-back loop of `pedido_faturar`, one line after the other from the current stock. */
    method ExpedirLinhas(itens: seq<Pedidos.ItemPedido>)
      requires Valid() && Sobre(itens, variacoes)
      modifies this`variacoes, this`movimentos
      ensures Valid()
      ensures variacoes == Expedido(old(variacoes), itens)
      ensures movimentos == old(movimentos) + SaidasFaturamento(itens, old(variacoes))
    {
      var w, saidas := ExpedirValores(variacoes, itens);
      ConciliaFaturamento(insumos, variacoes, movimentos, aberturaInsumo, aberturaVariacao, itens);
      IdentidadesExpedido(variacoes, itens);
      variacoes := w;
      movimentos := movimentos + saidas;
    }

    /** Writes back new variant rows and the next id; a new row's stock becomes its opening stock. */
    method GravarVariacoes(w: map<nat, Variacao>, prox: nat)
      requires Valid()
      requires variacoes.Keys <= w.Keys && (forall v :: v in variacoes ==> w[v] == variacoes[v])
      requires Unicas(Identidades(w)) && (forall v :: v in w ==> v < prox)
      modifies this`variacoes, this`proximaVariacao, this`aberturaVariacao
      ensures Valid()
      ensures variacoes == w && proximaVariacao == prox
    {
      ConciliaNovasVariacoes(insumos, variacoes, w, movimentos, aberturaInsumo, aberturaVariacao);
      ReferenciasNovasVariacoes(ficha, insumos.Keys, variacoes, w, costureiras.Keys, remessas, itensRemessa,
                                pagamentos.Keys, proximaRemessa, proximaVariacao, prox);
      aberturaVariacao := AberturaCom(aberturaVariacao, variacoes, w);
      variacoes := w;
      proximaVariacao := prox;
    }

    /**
     * `Produto.ensure_variacoes_para_tipos`: every listed kind (the default
     * kind when none is listed) that the product lacks gets one new empty
     * variant with a SKU not in use; returns how many were created.
     */
    method GarantirVariacoesParaTipos(produto: nat, tipos: seq<string>, preco: real) returns (criadas: nat)
      requires Valid()
      modifies this`variacoes, this`proximaVariacao, this`aberturaVariacao
      ensures Valid()
      ensures old(variacoes).Keys <= variacoes.Keys && forall v :: v in old(variacoes) ==> variacoes[v] == old(variacoes)[v]
      ensures forall v :: v in variacoes && v !in old(variacoes) ==>
        CriadaParaTipo(variacoes[v], produto, preco) && variacoes[v].tipo in TiposEfetivos(tipos)
        && !TemTipo(old(variacoes), produto, variacoes[v].tipo)
      ensures Cobre(variacoes, produto, TiposEfetivos(tipos))
      ensures criadas == |variacoes.Keys - old(variacoes).Keys|
    {
      assert forall v :: v in variacoes ==> v in Identidades(variacoes);
      var w, prox;
      w, prox, criadas := CriarTipos(variacoes, proximaVariacao, produto, tipos, preco);
      GravarVariacoes(w, prox);
    }

    /**
     * `variacao_create`: the form refuses a missing or over-long kind, a
     * decimal that does not fit its column, a negative stock, cost or price and
     * a (product, kind) pair already in use; otherwise the variant is saved
     * under the next id with the SKU `_generate_unique_sku` picks from the SKU
     * base, and its stock as entered (no movement is logged for it). The kind
     * arrives already stripped by the form field.
     */
    method CriarVariacao(produto: nat, nomeProduto: string, tipo: string, estoque: real, custo: real, preco: real)
      returns (r: Result<nat>)
      requires Valid()
      modifies this`variacoes, this`proximaVariacao, this`aberturaVariacao
      ensures Valid()
      ensures r.Err? <==> !Formularios.CamposVariacaoValidos(tipo, estoque, custo, preco)
                          || estoque < 0.0 || custo < 0.0 || preco < 0.0 || TemTipo(old(variacoes), produto, tipo)
      ensures r.Err? ==> variacoes == old(variacoes) && proximaVariacao == old(proximaVariacao)
      ensures r.Ok? ==> (r.value !in old(variacoes) && variacoes.Keys == old(variacoes).Keys + {r.value}
        && (forall v :: v in old(variacoes) ==> variacoes[v] == old(variacoes)[v])
        && variacoes[r.value].produto == produto && variacoes[r.value].tipo == tipo
        && variacoes[r.value].estoque == estoque && variacoes[r.value].custoUnitario == custo
        && variacoes[r.value].precoSugerido == preco
        && SkuEscolhido(variacoes[r.value].sku, SkuBase(Some(produto), nomeProduto, tipo), Skus(old(variacoes)), Some(40)))
    {
      if !Formularios.CamposVariacaoValidos(tipo, estoque, custo, preco) {
        return Err("ValidationError: campo inválido.");
      }
      if estoque < 0.0 || custo < 0.0 || preco < 0.0 {
        return Err("ValidationError: Não pode ser negativo.");
      }
      if TemTipo(variacoes, produto, tipo) {
        return Err("ValidationError: Variação com este Produto e Tipo já existe.");
      }
      var sku := GerarSkuUnico(SkuBase(Some(produto), nomeProduto, tipo), Skus(variacoes), Some(40));
      var x := Variacao(produto, tipo, sku, estoque, custo, preco);
      var id := proximaVariacao;
      var w := variacoes[id := x];
      NovaLinha(variacoes, id, x, w);
      GravarVariacoes(w, id + 1);
      r := Ok(id);
    }

    /**
     * `pedido_faturar` with the stock check it means: refused, with nothing
     * changed, when the lines of some variant together exceed its stock;
     * otherwise every line leaves in order, each from the current stock and
     * logged, and the order becomes FAT.
     */
    method Faturar(p: Pedidos.Pedido) returns (r: Result<()>)
      requires Valid() && Sobre(p.itens, variacoes)
      modifies this`variacoes, this`movimentos, p`status
      ensures Valid()
      ensures r.Err? <==> FaltaAgregada(p.itens, old(variacoes))
      ensures r.Err? ==> variacoes == old(variacoes) && movimentos == old(movimentos) && p.status == old(p.status)
      ensures r.Ok? ==> variacoes == Expedido(old(variacoes), p.itens)
                        && movimentos == old(movimentos) + SaidasFaturamento(p.itens, old(variacoes))
                        && p.status == Pedidos.Fat
    {
      var ok := EstoqueSuficiente(p.itens);
      if !ok {
        return Err("Estoque insuficiente para faturar");
      }
      ExpedirLinhas(p.itens);
      p.status := Pedidos.Fat;
      r := Ok(());
    }
  }
}
