/**
 * Invoicing an order (`pedido_faturar`): the stock check over the order
 * lines and the "S" movements of the finished variants. Two versions of the
 * write-back are modelled: the one the view performs, where every line saves
 * its own copy of the variant loaded before the loop, and the sequential one
 * it evidently intends, which module Fabrica uses.
 */
module Faturamento {
  import opened Wrappers
  import opened Estoque
  import opened Pedidos

  /** Every order line names an existing variant. */
  predicate Sobre(itens: seq<ItemPedido>, vars: map<nat, Variacao>)
  {
    forall k :: 0 <= k < |itens| ==> itens[k].variacao in vars
  }

  /** Pieces of variant v that the order lines ask for together. */
  function Demanda(itens: seq<ItemPedido>, v: nat): real
  {
    if itens == [] then 0.0
    else
      var it := itens[|itens| - 1];
      Demanda(itens[..|itens| - 1], v) + (if it.variacao == v then it.quantidade else 0.0)
  }

  /** A variant after q pieces left it; nothing but the stock changes. */
  function Expedida(x: Variacao, q: real): (y: Variacao)
    ensures y.estoque == x.estoque - q
    ensures y.custoUnitario == x.custoUnitario && y.sku == x.sku && y.produto == x.produto && y.tipo == x.tipo
    ensures y.precoSugerido == x.precoSugerido
  {
    x.(estoque := x.estoque - q)
  }

  /** The variants after the lines leave one after the other, each from the stock the previous ones left. */
  function Expedido(vars: map<nat, Variacao>, itens: seq<ItemPedido>): (w: map<nat, Variacao>)
    requires Sobre(itens, vars)
    ensures w.Keys == vars.Keys
    ensures forall v :: v in vars ==> w[v].custoUnitario == vars[v].custoUnitario
  {
    if itens == [] then vars
    else
      var it := itens[|itens| - 1];
      var w := Expedido(vars, itens[..|itens| - 1]);
      w[it.variacao := Expedida(w[it.variacao], it.quantidade)]
  }

  /** The "S" movements of invoicing: one per line, in order, valued at the variant's unit cost. */
  function SaidasFaturamento(itens: seq<ItemPedido>, vars: map<nat, Variacao>): (log: seq<Movimento>)
    requires Sobre(itens, vars)
    ensures |log| == |itens|
    ensures forall k :: 0 <= k < |itens| ==>
      log[k] == Movimento(Saida, DaVariacao(itens[k].variacao), itens[k].quantidade,
                          vars[itens[k].variacao].custoUnitario, None, None)
  {
    if itens == [] then []
    else
      var it := itens[|itens| - 1];
      var init := SaidasFaturamento(itens[..|itens| - 1], vars);
      assert forall k :: 0 <= k < |itens| - 1 ==> itens[..|itens| - 1][k] == itens[k];
      init + [Movimento(Saida, DaVariacao(it.variacao), it.quantidade, vars[it.variacao].custoUnitario, None, None)]
  }

  /** One more line: its variant loses its quantity and one more movement is logged. */
  lemma ExpedidoPasso(vars: map<nat, Variacao>, itens: seq<ItemPedido>, k: nat)
    requires Sobre(itens, vars) && k < |itens|
    ensures Sobre(itens[..k], vars) && Sobre(itens[..k + 1], vars)
    ensures var w := Expedido(vars, itens[..k]); var v := itens[k].variacao;
      Expedido(vars, itens[..k + 1]) == w[v := Expedida(w[v], itens[k].quantidade)]
      && SaidasFaturamento(itens[..k + 1], vars)
         == SaidasFaturamento(itens[..k], vars) + [Movimento(Saida, DaVariacao(v), itens[k].quantidade, vars[v].custoUnitario, None, None)]
  {
    assert itens[..k + 1][..k] == itens[..k];
    assert itens[..k + 1][k] == itens[k];
  }

  /** The check the view performs: some line, on its own, asks for more than its variant's stock. */
  predicate FaltaPorItem(itens: seq<ItemPedido>, vars: map<nat, Variacao>)
    requires Sobre(itens, vars)
  {
    exists k :: 0 <= k < |itens| && vars[itens[k].variacao].estoque < itens[k].quantidade
  }

  /** The check the view means: the lines of some variant, together, ask for more than its stock. */
  predicate FaltaAgregada(itens: seq<ItemPedido>, vars: map<nat, Variacao>)
    requires Sobre(itens, vars)
  {
    exists k :: 0 <= k < |itens| && vars[itens[k].variacao].estoque < Demanda(itens, itens[k].variacao)
  }

  /**
   * The write-back as the view performs it: every line saves its own copy of
   * the variant, loaded before the loop, so the last line of a variant wins and
   * the variant's stock is the stock before invoicing minus that line's quantity.
   */
  function ExpedidoComoEscrito(vars: map<nat, Variacao>, itens: seq<ItemPedido>): (w: map<nat, Variacao>)
    requires Sobre(itens, vars)
    ensures w.Keys == vars.Keys
  {
    if itens == [] then vars
    else
      var it := itens[|itens| - 1];
      ExpedidoComoEscrito(vars, itens[..|itens| - 1])[it.variacao := Expedida(vars[it.variacao], it.quantidade)]
  }

  /**
   * In the view's write-back the last line of each variant wins: the variant
   * ends at its stock before invoicing minus that line's quantity alone, and a
   * variant no line names is untouched.
   */
  lemma {:induction false} ComoEscritoUltimaVence(vars: map<nat, Variacao>, itens: seq<ItemPedido>)
    requires Sobre(itens, vars)
    ensures forall v :: v in vars && !Pedida(itens, v) ==> ExpedidoComoEscrito(vars, itens)[v] == vars[v]
    ensures forall k :: 0 <= k < |itens| && Ultima(itens, k) ==>
      ExpedidoComoEscrito(vars, itens)[itens[k].variacao] == Expedida(vars[itens[k].variacao], itens[k].quantidade)
  {
    if itens != [] {
      var it := itens[|itens| - 1];
      var init := itens[..|itens| - 1];
      assert forall k :: 0 <= k < |init| ==> init[k] == itens[k];
      ComoEscritoUltimaVence(vars, init);
      var w := ExpedidoComoEscrito(vars, itens);
      forall k | 0 <= k < |itens| && Ultima(itens, k)
        ensures w[itens[k].variacao] == Expedida(vars[itens[k].variacao], itens[k].quantidade)
      {
        if k < |init| {
          assert Ultima(init, k);
        }
      }
      forall v | v in vars && !Pedida(itens, v) ensures w[v] == vars[v] {
        assert !Pedida(init, v);
      }
    }
  }

  /** Some order line names variant v. */
  predicate Pedida(itens: seq<ItemPedido>, v: nat)
  {
    exists k :: 0 <= k < |itens| && itens[k].variacao == v
  }

  /** Line k is the last line of its variant. */
  predicate Ultima(itens: seq<ItemPedido>, k: nat)
    requires k < |itens|
  {
    forall j :: k < j < |itens| ==> itens[j].variacao != itens[k].variacao
  }

  /** No two order lines name the same variant. */
  predicate LinhasDistintas(itens: seq<ItemPedido>)
  {
    forall j, k :: 0 <= j < k < |itens| ==> itens[j].variacao != itens[k].variacao
  }

  /** With distinct variants, a variant's demand is the quantity of its one line, or 0 when no line names it. */
  lemma {:induction false} DemandaSemRepeticao(itens: seq<ItemPedido>)
    requires LinhasDistintas(itens)
    ensures forall k :: 0 <= k < |itens| ==> Demanda(itens, itens[k].variacao) == itens[k].quantidade
    ensures forall v :: !Pedida(itens, v) ==> Demanda(itens, v) == 0.0
  {
    if itens != [] {
      var init := itens[..|itens| - 1];
      var it := itens[|itens| - 1];
      assert forall k :: 0 <= k < |init| ==> init[k] == itens[k];
      DemandaSemRepeticao(init);
      assert !Pedida(init, it.variacao);
      forall v | !Pedida(itens, v) ensures Demanda(itens, v) == 0.0 {
        assert !Pedida(init, v);
      }
    }
  }

  /**
   * When no two lines name the same variant, the view's per-line check is the
   * summed check and its write-back is the sequential one: the corrected
   * invoicing changes only orders that repeat a variant.
   */
  lemma {:induction false} ComoEscritoSemRepeticao(vars: map<nat, Variacao>, itens: seq<ItemPedido>)
    requires Sobre(itens, vars) && LinhasDistintas(itens)
    ensures FaltaPorItem(itens, vars) <==> FaltaAgregada(itens, vars)
    ensures ExpedidoComoEscrito(vars, itens) == Expedido(vars, itens)
  {
    DemandaSemRepeticao(itens);
    if itens != [] {
      var init := itens[..|itens| - 1];
      var it := itens[|itens| - 1];
      assert forall k :: 0 <= k < |init| ==> init[k] == itens[k];
      ComoEscritoSemRepeticao(vars, init);
      ComoEscritoUltimaVence(vars, init);
      assert !Pedida(init, it.variacao);
      assert Expedido(vars, init)[it.variacao] == vars[it.variacao];
    }
  }

  /** Each variant loses exactly the pieces its lines ask for; every other field stays. */
  lemma {:induction false} ExpedidoBaixaDemanda(vars: map<nat, Variacao>, itens: seq<ItemPedido>)
    requires Sobre(itens, vars)
    ensures forall v :: v in vars ==> Expedido(vars, itens)[v] == Expedida(vars[v], Demanda(itens, v))
  {
    if itens != [] {
      var init := itens[..|itens| - 1];
      ExpedidoBaixaDemanda(vars, init);
    }
  }

  /**
   * The sequential write-back keeps the ledger reconciled: every variant's stock
   * is its stock before plus the net of the invoicing movements.
   */
  lemma {:induction false} ExpedidoConcilia(vars: map<nat, Variacao>, itens: seq<ItemPedido>)
    requires Sobre(itens, vars)
    ensures forall v :: v in vars ==>
      Expedido(vars, itens)[v].estoque == vars[v].estoque + Liquido(SaidasFaturamento(itens, vars), DaVariacao(v))
  {
    if itens != [] {
      var init := itens[..|itens| - 1];
      var it := itens[|itens| - 1];
      ExpedidoConcilia(vars, init);
      var mv := Movimento(Saida, DaVariacao(it.variacao), it.quantidade, vars[it.variacao].custoUnitario, None, None);
      assert SaidasFaturamento(itens, vars) == SaidasFaturamento(init, vars) + [mv];
      forall v | v in vars
        ensures Expedido(vars, itens)[v].estoque == vars[v].estoque + Liquido(SaidasFaturamento(itens, vars), DaVariacao(v))
      {
        LiquidoAppend(SaidasFaturamento(init, vars), mv, DaVariacao(v));
      }
    }
  }

  /** When the aggregated check passes, no invoiced variant ends with a negative stock. */
  lemma ExpedidoSemEstoqueNegativo(vars: map<nat, Variacao>, itens: seq<ItemPedido>)
    requires Sobre(itens, vars) && !FaltaAgregada(itens, vars)
    ensures forall k :: 0 <= k < |itens| ==> Expedido(vars, itens)[itens[k].variacao].estoque >= 0.0
  {
    ExpedidoBaixaDemanda(vars, itens);
  }

  /**
   * Two lines of the same variant, 5 pieces each, against a stock of 8: the
   * view's per-line check lets them through, the write-back leaves 3 pieces
   * while the log records 10 leaving, and the aggregated check refuses them.
   */
  lemma FaturarPerdeBaixa(vars: map<nat, Variacao>, itens: seq<ItemPedido>)
    requires vars == map[0 := Variacao(0, "P", "X-P", 8.0, 1.0, 2.0)]
    requires itens == [ItemPedido(1, 0, 5.0, 2.0), ItemPedido(2, 0, 5.0, 2.0)]
    ensures Sobre(itens, vars) && !FaltaPorItem(itens, vars)
    ensures ExpedidoComoEscrito(vars, itens)[0].estoque == 3.0
    ensures Liquido(SaidasFaturamento(itens, vars), DaVariacao(0)) == -10.0
    ensures ExpedidoComoEscrito(vars, itens)[0].estoque != vars[0].estoque + Liquido(SaidasFaturamento(itens, vars), DaVariacao(0))
    ensures FaltaAgregada(itens, vars)
  {
    assert itens[..1] == [itens[0]];
    assert itens[..1][..0] == [];
    assert itens[..|itens| - 1] == itens[..1];
    assert Demanda(itens[..1], 0) == 5.0;
    assert Demanda(itens, 0) == 10.0;
    var log := SaidasFaturamento(itens, vars);
    assert log[..1][..0] == [];
    assert log[..|log| - 1] == log[..1];
    assert Liquido(log[..1], DaVariacao(0)) == -5.0;
  }
}
