/**
 * The stock ledger: raw materials (`Insumo`) with their weighted-average
 * cost, finished-product variants (`VariacaoProduto`) and the movement log
 * (`MovimentoEstoque`). Everything here is a value; the tables that hold
 * these values live in module Fabrica.
 */
module Estoque {
  import opened Wrappers

  /** A raw material: category name, stock on hand and weighted-average unit cost. */
  datatype Insumo = Insumo(nome: string, categoria: string, estoque: real, custoMedio: real)

  /** A finished-product variant of a product, identified by its SKU. */
  datatype Variacao = Variacao(produto: nat, tipo: string, sku: string, estoque: real,
                               custoUnitario: real, precoSugerido: real)

  /** One line of a variant's technical sheet: material, quantity per piece, configured phase. */
  datatype FichaItem = FichaItem(insumo: nat, quantidade: real, fase: string)

  /** Movement direction: "E" (in) or "S" (out). */
  datatype Sentido = Entrada | Saida

  /** A movement concerns either a material or a variant. */
  datatype Alvo = DoInsumo(insumo: nat) | DaVariacao(variacao: nat)

  /** A `MovimentoEstoque` row (the free-text observation is not kept). */
  datatype Movimento = Movimento(tipo: Sentido, alvo: Alvo, quantidade: real, custoUnit: real,
                                 costureira: Option<nat>, remessa: Option<nat>)

  /**
   * `Insumo.entrada`: the stock grows by q; when the new stock is positive the
   * average cost is recomputed so that the stock value is the old value plus
   * the value received, otherwise the average is kept.
   */
  function AposEntrada(m: Insumo, q: real, c: real): (r: Insumo)
    ensures r.nome == m.nome && r.categoria == m.categoria
    ensures r.estoque == m.estoque + q
    ensures r.estoque > 0.0 ==> r.estoque * r.custoMedio == m.estoque * m.custoMedio + q * c
    ensures r.estoque <= 0.0 ==> r.custoMedio == m.custoMedio
  {
    var novo := m.estoque + q;
    if novo > 0.0 then m.(estoque := novo, custoMedio := (m.estoque * m.custoMedio + q * c) / novo)
    else m.(estoque := novo)
  }

  /** The guard of `Insumo.saida`: more than the stock on hand cannot leave. */
  predicate Falta(m: Insumo, q: real)
  {
    q > m.estoque
  }

  /** The material after a successful `Insumo.saida`. */
  function AposSaida(m: Insumo, q: real): (r: Insumo)
    requires !Falta(m, q)
    ensures r.estoque == m.estoque - q && r.estoque >= 0.0
    ensures r.custoMedio == m.custoMedio && r.nome == m.nome && r.categoria == m.categoria
  {
    m.(estoque := m.estoque - q)
  }

  /** Signed quantity a movement adds to its target. */
  function Sinal(mv: Movimento): real
  {
    match mv.tipo
    case Entrada => mv.quantidade
    case Saida => -mv.quantidade
  }

  /** Net quantity that the log has moved into (or out of) one target. */
  function Liquido(log: seq<Movimento>, a: Alvo): real
  {
    if log == [] then 0.0
    else Liquido(log[..|log| - 1], a) + (if log[|log| - 1].alvo == a then Sinal(log[|log| - 1]) else 0.0)
  }

  /** Appending one movement changes the net of its own target only, by its signed quantity. */
  lemma LiquidoAppend(log: seq<Movimento>, mv: Movimento, a: Alvo)
    ensures Liquido(log + [mv], a) == Liquido(log, a) + (if mv.alvo == a then Sinal(mv) else 0.0)
  {
    assert (log + [mv])[..|log|] == log;
  }

  /** The net of a concatenation is the sum of the nets. */
  lemma {:induction false} LiquidoConcat(log: seq<Movimento>, extra: seq<Movimento>, a: Alvo)
    ensures Liquido(log + extra, a) == Liquido(log, a) + Liquido(extra, a)
  {
    if extra == [] {
      assert log + extra == log;
    } else {
      var init := extra[..|extra| - 1];
      assert (log + extra)[..|log + extra| - 1] == log + init;
      assert (log + extra)[|log + extra| - 1] == extra[|extra| - 1];
      LiquidoConcat(log, init, a);
    }
  }

  /** A target that no movement mentions has a zero net. */
  lemma {:induction false} LiquidoSemMovimento(log: seq<Movimento>, a: Alvo)
    requires forall k :: 0 <= k < |log| ==> log[k].alvo != a
    ensures Liquido(log, a) == 0.0
  {
    if log != [] {
      LiquidoSemMovimento(log[..|log| - 1], a);
    }
  }

  /**
   * Receipts at a non-negative quantity and cost, starting from an empty
   * stock, give the quantity-weighted mean of the receipt costs.
   */
  lemma MediaPonderadaDeDuasEntradas(m: Insumo, q1: real, c1: real, q2: real, c2: real)
    requires m.estoque == 0.0 && q1 > 0.0 && q2 > 0.0
    ensures AposEntrada(AposEntrada(m, q1, c1), q2, c2).custoMedio == (q1 * c1 + q2 * c2) / (q1 + q2)
  {
    var a := AposEntrada(m, q1, c1);
    var b := AposEntrada(a, q2, c2);
    assert a.estoque == q1;
    assert a.estoque * a.custoMedio == q1 * c1;
    assert b.estoque == q1 + q2;
    assert b.estoque * b.custoMedio == q1 * c1 + q2 * c2;
  }

  /**
   * With a non-negative stock and a positive receipt, the new average cost lies
   * between the old average and the incoming unit cost.
   */
  lemma MediaEntreAnteriorERecebida(m: Insumo, q: real, c: real)
    requires m.estoque >= 0.0 && q > 0.0
    ensures var r := AposEntrada(m, q, c);
      (m.custoMedio <= c ==> m.custoMedio <= r.custoMedio <= c)
      && (c <= m.custoMedio ==> c <= r.custoMedio <= m.custoMedio)
  {
    var r := AposEntrada(m, q, c);
    assert (m.estoque + q) * r.custoMedio == m.estoque * m.custoMedio + q * c;
    if m.custoMedio <= c {
      MediaPonderadaEntre(m.estoque, q, m.custoMedio, c, r.custoMedio);
    } else {
      assert (q + m.estoque) * r.custoMedio == q * c + m.estoque * m.custoMedio;
      MediaPonderadaEntre(q, m.estoque, c, m.custoMedio, r.custoMedio);
    }
  }

  /** A weighted average of x and y with non-negative weights, not both zero, lies between x and y. */
  lemma MediaPonderadaEntre(a: real, b: real, x: real, y: real, r: real)
    requires a >= 0.0 && b >= 0.0 && a + b > 0.0 && x <= y
    requires (a + b) * r == a * x + b * y
    ensures x <= r <= y
  {
    var n := a + b;
    assert n * r - n * x == b * (y - x);
    assert n * y - n * r == a * (y - x);
    ProdutoNaoNegativo(b, y - x);
    ProdutoNaoNegativo(a, y - x);
    CancelaFator(n, x, r);
    CancelaFator(n, r, y);
  }

  /** A product of non-negative factors is non-negative. */
  lemma ProdutoNaoNegativo(a: real, b: real)
    requires a >= 0.0 && b >= 0.0
    ensures a * b >= 0.0
  {
  }

  /** A positive factor on both sides can be cancelled from an inequality. */
  lemma CancelaFator(n: real, x: real, y: real)
    requires n > 0.0 && n * x <= n * y
    ensures x <= y
  {
    if x > y {
      ProdutoPositivo(n, x - y);
    }
  }

  /** A product of positive factors is positive. */
  lemma ProdutoPositivo(a: real, b: real)
    requires a > 0.0 && b > 0.0
    ensures a * b > 0.0
  {
  }

  /** `entrada` does not refuse a negative quantity: it can drive the stock below zero, keeping the average. */
  lemma EntradaNegativaDeixaEstoqueNegativo(m: Insumo)
    requires m.estoque == 0.0
    ensures AposEntrada(m, -5.0, 1.0).estoque == -5.0
    ensures AposEntrada(m, -5.0, 1.0).custoMedio == m.custoMedio
  {
  }

  /** One stock effect of a production step: issue a material, or credit finished pieces to a variant. */
  datatype Efeito = Baixa(insumo: nat, quantidade: real) | Credito(variacao: nat, quantidade: real)

  /** The tables after a run of effects, the movements it logged, whether it stopped at a shortage, and the value issued. */
  datatype Execucao = Execucao(insumos: map<nat, Insumo>, variacoes: map<nat, Variacao>,
                               log: seq<Movimento>, falhou: bool, custo: real)

  /** Every effect names a row that exists. */
  predicate Aplicavel(ins: map<nat, Insumo>, vars: map<nat, Variacao>, plano: seq<Efeito>)
  {
    forall k :: 0 <= k < |plano| ==>
      (plano[k].Baixa? ==> plano[k].insumo in ins) && (plano[k].Credito? ==> plano[k].variacao in vars)
  }

  /**
   * One effect: an issue goes through `Insumo.saida` (refused on a shortage,
   * logged at the current average cost); a credit adds the pieces to the
   * variant and logs them at the variant's unit cost.
   */
  function Passo(e: Execucao, ef: Efeito, costureira: Option<nat>, remessa: Option<nat>): Execucao
    requires ef.Baixa? ==> ef.insumo in e.insumos
    requires ef.Credito? ==> ef.variacao in e.variacoes
  {
    match ef
    case Baixa(i, q) =>
      var m := e.insumos[i];
      if Falta(m, q) then e.(falhou := true)
      else e.(insumos := e.insumos[i := AposSaida(m, q)],
              log := e.log + [Movimento(Saida, DoInsumo(i), q, m.custoMedio, costureira, remessa)],
              custo := e.custo + m.custoMedio * q)
    case Credito(v, q) =>
      var x := e.variacoes[v];
      e.(variacoes := e.variacoes[v := x.(estoque := x.estoque + q)],
         log := e.log + [Movimento(Entrada, DaVariacao(v), q, x.custoUnitario, costureira, remessa)])
  }

  /** Runs the effects in order and stops at the first shortage. */
  function Executar(ins: map<nat, Insumo>, vars: map<nat, Variacao>, plano: seq<Efeito>,
                    costureira: Option<nat>, remessa: Option<nat>): (e: Execucao)
    requires Aplicavel(ins, vars, plano)
    ensures e.insumos.Keys == ins.Keys && e.variacoes.Keys == vars.Keys
    ensures !e.falhou ==> |e.log| == |plano|
  {
    if plano == [] then Execucao(ins, vars, [], false, 0.0)
    else
      var e := Executar(ins, vars, plano[..|plano| - 1], costureira, remessa);
      if e.falhou then e else Passo(e, plano[|plano| - 1], costureira, remessa)
  }

  /** Running one more effect is one more step. */
  lemma ExecutarAppend(ins: map<nat, Insumo>, vars: map<nat, Variacao>, plano: seq<Efeito>, ef: Efeito,
                       costureira: Option<nat>, remessa: Option<nat>)
    requires Aplicavel(ins, vars, plano + [ef])
    ensures Aplicavel(ins, vars, plano)
    ensures var e := Executar(ins, vars, plano, costureira, remessa);
      Executar(ins, vars, plano + [ef], costureira, remessa) == if e.falhou then e else Passo(e, ef, costureira, remessa)
  {
    assert (plano + [ef])[..|plano|] == plano;
    assert forall k :: 0 <= k < |plano| ==> plano[k] == (plano + [ef])[k];
  }

  /** A run that stopped at a shortage stays stopped: the effects after the shortage are never applied. */
  lemma {:induction false} ExecutarParaNaFalta(ins: map<nat, Insumo>, vars: map<nat, Variacao>, p: seq<Efeito>,
                                               plano: seq<Efeito>, costureira: Option<nat>, remessa: Option<nat>)
    requires Aplicavel(ins, vars, plano) && p <= plano
    requires Aplicavel(ins, vars, p) && Executar(ins, vars, p, costureira, remessa).falhou
    ensures Executar(ins, vars, plano, costureira, remessa) == Executar(ins, vars, p, costureira, remessa)
    decreases |plano|
  {
    if |plano| > |p| {
      var init := plano[..|plano| - 1];
      assert plano == init + [plano[|plano| - 1]];
      ExecutarAppend(ins, vars, init, plano[|plano| - 1], costureira, remessa);
      ExecutarParaNaFalta(ins, vars, p, init, costureira, remessa);
    } else {
      assert p == plano;
    }
  }

  /**
   * Runs a plan effect by effect, as the views and model methods do row by row,
   * and stops at the first shortage.
   */
  method ExecutarPlano(ins: map<nat, Insumo>, vars: map<nat, Variacao>, plano: seq<Efeito>,
                       costureira: Option<nat>, remessa: Option<nat>) returns (e: Execucao)
    requires Aplicavel(ins, vars, plano)
    ensures e == Executar(ins, vars, plano, costureira, remessa)
  {
    e := Execucao(ins, vars, [], false, 0.0);
    var k := 0;
    while k < |plano|
      invariant 0 <= k <= |plano|
      invariant Aplicavel(ins, vars, plano[..k])
      invariant e == Executar(ins, vars, plano[..k], costureira, remessa) && !e.falhou
    {
      assert plano[..k + 1] == plano[..k] + [plano[k]];
      ExecutarAppend(ins, vars, plano[..k], plano[k], costureira, remessa);
      e := Passo(e, plano[k], costureira, remessa);
      if e.falhou {
        ExecutarParaNaFalta(ins, vars, plano[..k + 1], plano, costureira, remessa);
        return;
      }
      k := k + 1;
    }
    assert plano[..k] == plano;
  }

  /**
   * A run (stopped or not) changes only stocks: every other field of every
   * material and variant row is as it was.
   */
  lemma {:induction false} ExecutarSoEstoque(ins: map<nat, Insumo>, vars: map<nat, Variacao>, plano: seq<Efeito>,
                                             costureira: Option<nat>, remessa: Option<nat>)
    requires Aplicavel(ins, vars, plano)
    ensures var e := Executar(ins, vars, plano, costureira, remessa);
      (forall i :: i in ins ==> e.insumos[i] == ins[i].(estoque := e.insumos[i].estoque))
      && (forall v :: v in vars ==> e.variacoes[v] == vars[v].(estoque := e.variacoes[v].estoque))
  {
    if plano != [] {
      var init := plano[..|plano| - 1];
      assert plano == init + [plano[|plano| - 1]];
      ExecutarAppend(ins, vars, init, plano[|plano| - 1], costureira, remessa);
      ExecutarSoEstoque(ins, vars, init, costureira, remessa);
      var e := Executar(ins, vars, init, costureira, remessa);
      if !e.falhou {
        PassoSoEstoque(e, plano[|plano| - 1], costureira, remessa);
      }
    }
  }

  /** One step changes only stocks. */
  lemma PassoSoEstoque(e: Execucao, ef: Efeito, costureira: Option<nat>, remessa: Option<nat>)
    requires ef.Baixa? ==> ef.insumo in e.insumos
    requires ef.Credito? ==> ef.variacao in e.variacoes
    ensures var e2 := Passo(e, ef, costureira, remessa);
      e2.insumos.Keys == e.insumos.Keys && e2.variacoes.Keys == e.variacoes.Keys
      && (forall i :: i in e.insumos ==> e2.insumos[i] == e.insumos[i].(estoque := e2.insumos[i].estoque))
      && (forall v :: v in e.variacoes ==> e2.variacoes[v] == e.variacoes[v].(estoque := e2.variacoes[v].estoque))
  {
  }

  /** A plan made only of issues leaves the variants as they were. */
  lemma {:induction false} SoBaixasMantemVariacoes(ins: map<nat, Insumo>, vars: map<nat, Variacao>, plano: seq<Efeito>,
                                                   costureira: Option<nat>, remessa: Option<nat>)
    requires Aplicavel(ins, vars, plano) && forall k :: 0 <= k < |plano| ==> plano[k].Baixa?
    ensures Executar(ins, vars, plano, costureira, remessa).variacoes == vars
  {
    if plano != [] {
      var init := plano[..|plano| - 1];
      assert plano == init + [plano[|plano| - 1]];
      ExecutarAppend(ins, vars, init, plano[|plano| - 1], costureira, remessa);
      SoBaixasMantemVariacoes(ins, vars, init, costureira, remessa);
    }
  }

  /** Quantity of material i that one effect issues. */
  function Requer(ef: Efeito, i: nat): real
  {
    match ef
    case Baixa(j, q) => if j == i then q else 0.0
    case Credito(_, _) => 0.0
  }

  /** Quantity of variant v that one effect credits. */
  function Credita(ef: Efeito, v: nat): real
  {
    match ef
    case Credito(w, q) => if w == v then q else 0.0
    case Baixa(_, _) => 0.0
  }

  /** Total quantity of a material that a plan issues. */
  function Requisitado(plano: seq<Efeito>, i: nat): real
  {
    if plano == [] then 0.0 else Requisitado(plano[..|plano| - 1], i) + Requer(plano[|plano| - 1], i)
  }

  /** Total quantity a plan credits to a variant. */
  function Creditado(plano: seq<Efeito>, v: nat): real
  {
    if plano == [] then 0.0 else Creditado(plano[..|plano| - 1], v) + Credita(plano[|plano| - 1], v)
  }

  /** No issue asks for a negative quantity. */
  predicate BaixasNaoNegativas(plano: seq<Efeito>)
  {
    forall k :: 0 <= k < |plano| ==> plano[k].Baixa? ==> plano[k].quantidade >= 0.0
  }

  /** A step that goes through changes each row by that effect's own quantity only. */
  lemma PassoEfeito(e: Execucao, ef: Efeito, costureira: Option<nat>, remessa: Option<nat>)
    requires ef.Baixa? ==> ef.insumo in e.insumos
    requires ef.Credito? ==> ef.variacao in e.variacoes
    ensures var e2 := Passo(e, ef, costureira, remessa);
      !e2.falhou ==>
        (forall i :: i in e.insumos ==> e2.insumos[i] == e.insumos[i].(estoque := e.insumos[i].estoque - Requer(ef, i)))
        && (forall v :: v in e.variacoes ==> e2.variacoes[v] == e.variacoes[v].(estoque := e.variacoes[v].estoque + Credita(ef, v)))
  {
  }

  /**
   * A run that did not stop has taken from each material exactly what the plan
   * requires and credited each variant exactly what the plan credits, leaving
   * every other field of the rows as it was.
   */
  lemma {:induction false} ExecutarEfeito(ins: map<nat, Insumo>, vars: map<nat, Variacao>, plano: seq<Efeito>,
                                           costureira: Option<nat>, remessa: Option<nat>)
    requires Aplicavel(ins, vars, plano)
    ensures var e := Executar(ins, vars, plano, costureira, remessa);
      !e.falhou ==>
        (forall i :: i in ins ==> e.insumos[i] == ins[i].(estoque := ins[i].estoque - Requisitado(plano, i)))
        && (forall v :: v in vars ==> e.variacoes[v] == vars[v].(estoque := vars[v].estoque + Creditado(plano, v)))
  {
    if plano != [] {
      var init := plano[..|plano| - 1];
      var ef := plano[|plano| - 1];
      assert plano == init + [ef];
      ExecutarAppend(ins, vars, init, ef, costureira, remessa);
      ExecutarEfeito(ins, vars, init, costureira, remessa);
      var e := Executar(ins, vars, init, costureira, remessa);
      if !e.falhou {
        assert ef == plano[|plano| - 1];
        PassoEfeito(e, ef, costureira, remessa);
        var e2 := Passo(e, ef, costureira, remessa);
        if !e2.falhou {
          forall i | i in ins ensures e2.insumos[i] == ins[i].(estoque := ins[i].estoque - Requisitado(plano, i)) {
            assert Requisitado(plano, i) == Requisitado(init, i) + Requer(ef, i);
          }
          forall v | v in vars ensures e2.variacoes[v] == vars[v].(estoque := vars[v].estoque + Creditado(plano, v)) {
            assert Creditado(plano, v) == Creditado(init, v) + Credita(ef, v);
          }
        }
      }
    }
  }

  /**
   * With non-negative stocks and issue quantities, a run stops at a shortage exactly when
   * the plan's total requirement of some material exceeds its stock.
   */
  lemma {:induction false} ExecutarFalhaSseFalta(ins: map<nat, Insumo>, vars: map<nat, Variacao>, plano: seq<Efeito>,
                                                 costureira: Option<nat>, remessa: Option<nat>)
    requires Aplicavel(ins, vars, plano) && BaixasNaoNegativas(plano)
    requires forall i :: i in ins ==> ins[i].estoque >= 0.0
    ensures Executar(ins, vars, plano, costureira, remessa).falhou
      <==> exists i :: i in ins && Requisitado(plano, i) > ins[i].estoque
  {
    if plano != [] {
      var init := plano[..|plano| - 1];
      var ef := plano[|plano| - 1];
      assert plano == init + [ef];
      ExecutarAppend(ins, vars, init, ef, costureira, remessa);
      assert BaixasNaoNegativas(init) by {
        forall k | 0 <= k < |init| ensures init[k].Baixa? ==> init[k].quantidade >= 0.0 {
          assert init[k] == plano[k];
        }
      }
      assert ef.Baixa? ==> ef.quantidade >= 0.0 by {
        assert ef == plano[|plano| - 1];
      }
      ExecutarFalhaSseFalta(ins, vars, init, costureira, remessa);
      ExecutarEfeito(ins, vars, init, costureira, remessa);
      var e := Executar(ins, vars, init, costureira, remessa);
      if e.falhou {
        var i :| i in ins && Requisitado(init, i) > ins[i].estoque;
        assert Requer(ef, i) >= 0.0;
        assert Requisitado(plano, i) > ins[i].estoque;
      } else if ef.Baixa? && Falta(e.insumos[ef.insumo], ef.quantidade) {
        assert Requisitado(plano, ef.insumo) > ins[ef.insumo].estoque;
      } else {
        forall i | i in ins ensures Requisitado(plano, i) <= ins[i].estoque {
          assert Requisitado(init, i) <= ins[i].estoque;
          if ef.Baixa? && ef.insumo == i {
            assert !Falta(e.insumos[i], ef.quantidade);
          }
        }
      }
    }
  }

  /**
   * Reconciliation: after a run (stopped or not), every row's stock is its
   * stock before plus the net of the movements the run logged for it, and
   * every logged movement names an existing row.
   */
  lemma {:induction false} ExecutarReconcilia(ins: map<nat, Insumo>, vars: map<nat, Variacao>, plano: seq<Efeito>,
                                              costureira: Option<nat>, remessa: Option<nat>)
    requires Aplicavel(ins, vars, plano)
    ensures var e := Executar(ins, vars, plano, costureira, remessa);
      (forall i :: i in ins ==> e.insumos[i].estoque == ins[i].estoque + Liquido(e.log, DoInsumo(i)))
      && (forall v :: v in vars ==> e.variacoes[v].estoque == vars[v].estoque + Liquido(e.log, DaVariacao(v)))
      && LogSobre(e.log, ins.Keys, vars.Keys)
  {
    if plano != [] {
      var init := plano[..|plano| - 1];
      var ef := plano[|plano| - 1];
      assert plano == init + [ef];
      ExecutarAppend(ins, vars, init, ef, costureira, remessa);
      ExecutarReconcilia(ins, vars, init, costureira, remessa);
      var e := Executar(ins, vars, init, costureira, remessa);
      if !e.falhou {
        PassoReconcilia(e, ef, costureira, remessa, ins, vars);
      }
    }
  }

  /** Every movement of the log names a material or a variant among the given ones. */
  predicate LogSobre(log: seq<Movimento>, ids: set<nat>, vs: set<nat>)
  {
    forall k :: 0 <= k < |log| ==>
      (log[k].alvo.DoInsumo? ==> log[k].alvo.insumo in ids) && (log[k].alvo.DaVariacao? ==> log[k].alvo.variacao in vs)
  }

  /** One step keeps the reconciliation of a run with its log. */
  lemma PassoReconcilia(e: Execucao, ef: Efeito, costureira: Option<nat>, remessa: Option<nat>,
                        ins: map<nat, Insumo>, vars: map<nat, Variacao>)
    requires ef.Baixa? ==> ef.insumo in e.insumos
    requires ef.Credito? ==> ef.variacao in e.variacoes
    requires e.insumos.Keys == ins.Keys && e.variacoes.Keys == vars.Keys
    requires forall i :: i in ins ==> e.insumos[i].estoque == ins[i].estoque + Liquido(e.log, DoInsumo(i))
    requires forall v :: v in vars ==> e.variacoes[v].estoque == vars[v].estoque + Liquido(e.log, DaVariacao(v))
    requires LogSobre(e.log, ins.Keys, vars.Keys)
    ensures var e2 := Passo(e, ef, costureira, remessa);
      (forall i :: i in ins ==> e2.insumos[i].estoque == ins[i].estoque + Liquido(e2.log, DoInsumo(i)))
      && (forall v :: v in vars ==> e2.variacoes[v].estoque == vars[v].estoque + Liquido(e2.log, DaVariacao(v)))
      && LogSobre(e2.log, ins.Keys, vars.Keys)
  {
    if ef.Baixa? {
      PassoReconciliaBaixa(e, ef, costureira, remessa, ins, vars);
    } else {
      PassoReconciliaCredito(e, ef, costureira, remessa, ins, vars);
    }
  }

  /** An issue step keeps the reconciliation: the material loses what the logged exit records. */
  lemma PassoReconciliaBaixa(e: Execucao, ef: Efeito, costureira: Option<nat>, remessa: Option<nat>,
                             ins: map<nat, Insumo>, vars: map<nat, Variacao>)
    requires ef.Baixa? && ef.insumo in e.insumos
    requires e.insumos.Keys == ins.Keys && e.variacoes.Keys == vars.Keys
    requires forall i :: i in ins ==> e.insumos[i].estoque == ins[i].estoque + Liquido(e.log, DoInsumo(i))
    requires forall v :: v in vars ==> e.variacoes[v].estoque == vars[v].estoque + Liquido(e.log, DaVariacao(v))
    requires LogSobre(e.log, ins.Keys, vars.Keys)
    ensures var e2 := Passo(e, ef, costureira, remessa);
      (forall i :: i in ins ==> e2.insumos[i].estoque == ins[i].estoque + Liquido(e2.log, DoInsumo(i)))
      && (forall v :: v in vars ==> e2.variacoes[v].estoque == vars[v].estoque + Liquido(e2.log, DaVariacao(v)))
      && LogSobre(e2.log, ins.Keys, vars.Keys)
  {
    var j, q := ef.insumo, ef.quantidade;
    var m := e.insumos[j];
    if !Falta(m, q) {
      var e2 := Passo(e, ef, costureira, remessa);
      var mv := Movimento(Saida, DoInsumo(j), q, m.custoMedio, costureira, remessa);
      assert e2.log == e.log + [mv];
      assert e2.insumos == e.insumos[j := AposSaida(m, q)];
      forall i | i in ins
        ensures e2.insumos[i].estoque == e.insumos[i].estoque + (if mv.alvo == DoInsumo(i) then Sinal(mv) else 0.0)
      {
        if i == j {
          assert e2.insumos[i].estoque == m.estoque - q;
        }
      }
      InsumosMovidos(e.insumos, e2.insumos, ins, e.log, mv);
      assert e2.variacoes == e.variacoes;
      VariacoesMovidas(e.variacoes, e2.variacoes, vars, e.log, mv);
      LogSobreAppend(e.log, mv, ins.Keys, vars.Keys);
    }
  }

  /** A credit step keeps the reconciliation: the variant gains what the logged entry records. */
  lemma PassoReconciliaCredito(e: Execucao, ef: Efeito, costureira: Option<nat>, remessa: Option<nat>,
                               ins: map<nat, Insumo>, vars: map<nat, Variacao>)
    requires ef.Credito? && ef.variacao in e.variacoes
    requires e.insumos.Keys == ins.Keys && e.variacoes.Keys == vars.Keys
    requires forall i :: i in ins ==> e.insumos[i].estoque == ins[i].estoque + Liquido(e.log, DoInsumo(i))
    requires forall v :: v in vars ==> e.variacoes[v].estoque == vars[v].estoque + Liquido(e.log, DaVariacao(v))
    requires LogSobre(e.log, ins.Keys, vars.Keys)
    ensures var e2 := Passo(e, ef, costureira, remessa);
      (forall i :: i in ins ==> e2.insumos[i].estoque == ins[i].estoque + Liquido(e2.log, DoInsumo(i)))
      && (forall v :: v in vars ==> e2.variacoes[v].estoque == vars[v].estoque + Liquido(e2.log, DaVariacao(v)))
      && LogSobre(e2.log, ins.Keys, vars.Keys)
  {
    var w, q := ef.variacao, ef.quantidade;
    var x := e.variacoes[w];
    var e2 := Passo(e, ef, costureira, remessa);
    var mv := Movimento(Entrada, DaVariacao(w), q, x.custoUnitario, costureira, remessa);
    assert e2.log == e.log + [mv];
    assert e2.insumos == e.insumos;
    InsumosMovidos(e.insumos, e2.insumos, ins, e.log, mv);
    assert e2.variacoes == e.variacoes[w := x.(estoque := x.estoque + q)];
    forall v | v in vars
      ensures e2.variacoes[v].estoque == e.variacoes[v].estoque + (if mv.alvo == DaVariacao(v) then Sinal(mv) else 0.0)
    {
      if v == w {
        assert e2.variacoes[v].estoque == x.estoque + q;
      }
    }
    VariacoesMovidas(e.variacoes, e2.variacoes, vars, e.log, mv);
    LogSobreAppend(e.log, mv, ins.Keys, vars.Keys);
  }

  /** Material rows moved by one movement stay reconciled with the log extended by it. */
  lemma InsumosMovidos(antes: map<nat, Insumo>, depois: map<nat, Insumo>, ins: map<nat, Insumo>,
                       log: seq<Movimento>, mv: Movimento)
    requires antes.Keys == ins.Keys && depois.Keys == ins.Keys
    requires forall i :: i in ins ==> antes[i].estoque == ins[i].estoque + Liquido(log, DoInsumo(i))
    requires forall i :: i in ins ==>
      depois[i].estoque == antes[i].estoque + (if mv.alvo == DoInsumo(i) then Sinal(mv) else 0.0)
    ensures forall i :: i in ins ==> depois[i].estoque == ins[i].estoque + Liquido(log + [mv], DoInsumo(i))
  {
    forall i | i in ins
      ensures depois[i].estoque == ins[i].estoque + Liquido(log + [mv], DoInsumo(i))
    {
      LiquidoAppend(log, mv, DoInsumo(i));
    }
  }

  /** Variant rows moved by one movement stay reconciled with the log extended by it. */
  lemma VariacoesMovidas(antes: map<nat, Variacao>, depois: map<nat, Variacao>, vars: map<nat, Variacao>,
                         log: seq<Movimento>, mv: Movimento)
    requires antes.Keys == vars.Keys && depois.Keys == vars.Keys
    requires forall v :: v in vars ==> antes[v].estoque == vars[v].estoque + Liquido(log, DaVariacao(v))
    requires forall v :: v in vars ==>
      depois[v].estoque == antes[v].estoque + (if mv.alvo == DaVariacao(v) then Sinal(mv) else 0.0)
    ensures forall v :: v in vars ==> depois[v].estoque == vars[v].estoque + Liquido(log + [mv], DaVariacao(v))
  {
    forall v | v in vars
      ensures depois[v].estoque == vars[v].estoque + Liquido(log + [mv], DaVariacao(v))
    {
      LiquidoAppend(log, mv, DaVariacao(v));
    }
  }

  /** Appending a movement that names one of the rows keeps the log about those rows. */
  lemma LogSobreAppend(log: seq<Movimento>, mv: Movimento, ids: set<nat>, vs: set<nat>)
    requires LogSobre(log, ids, vs)
    requires mv.alvo.DoInsumo? ==> mv.alvo.insumo in ids
    requires mv.alvo.DaVariacao? ==> mv.alvo.variacao in vs
    ensures LogSobre(log + [mv], ids, vs)
  {
    forall k | 0 <= k < |log + [mv]|
      ensures ((log + [mv])[k].alvo.DoInsumo? ==> (log + [mv])[k].alvo.insumo in ids)
           && ((log + [mv])[k].alvo.DaVariacao? ==> (log + [mv])[k].alvo.variacao in vs)
    {
      if k < |log| {
        assert (log + [mv])[k] == log[k];
      }
    }
  }

  /** Two logs about the same rows, one after the other, are about those rows. */
  lemma LogSobreConcat(log: seq<Movimento>, extra: seq<Movimento>, ids: set<nat>, vs: set<nat>)
    requires LogSobre(log, ids, vs) && LogSobre(extra, ids, vs)
    ensures LogSobre(log + extra, ids, vs)
  {
    forall k | 0 <= k < |log + extra|
      ensures ((log + extra)[k].alvo.DoInsumo? ==> (log + extra)[k].alvo.insumo in ids)
           && ((log + extra)[k].alvo.DaVariacao? ==> (log + extra)[k].alvo.variacao in vs)
    {
      if k < |log| {
        assert (log + extra)[k] == log[k];
      } else {
        assert (log + extra)[k] == extra[k - |log|];
      }
    }
  }

  /** A log about some rows is also about any larger set of rows. */
  lemma LogSobreAmplia(log: seq<Movimento>, ids: set<nat>, vs: set<nat>, ids2: set<nat>, vs2: set<nat>)
    requires LogSobre(log, ids, vs) && ids <= ids2 && vs <= vs2
    ensures LogSobre(log, ids2, vs2)
  {
  }
}
