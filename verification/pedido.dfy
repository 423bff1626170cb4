/**
 * Customer orders (`Pedido`): totals with percentage discount and surcharge,
 * the automatic down payment and final balance, the quote totals shown to
 * the customer, the public approval of a quote, and the merge of a size
 * collection (`ColetaPedido`) into the order's personalisation lines.
 */
module Pedidos {
  import opened Wrappers
  import opened Decimal

  /** An order line (`ItemPedido`). */
  datatype ItemPedido = ItemPedido(id: nat, variacao: nat, quantidade: real, precoUnitario: real)

  /** Order status: ORC, PEN, PROD, FAT, CANC. */
  datatype StatusPedido = Orc | Pen | Prod | Fat | Canc

  /** Public approval status of the quote: PEND, APRV, REJ. */
  datatype Aprovacao = AprovacaoPendente | Aprovado | Recusado

  /** A personalisation line (`PersonalizacaoItem`) of an order line. */
  datatype Personalizacao = Personalizacao(item: nat, nome: Option<string>, numero: Option<string>,
                                           tamanho: Option<string>, quantidade: Option<nat>,
                                           outraInfo: Option<string>, incluirShort: bool,
                                           tamanhoShort: Option<string>)

  /** A person of a size collection (`PessoaColeta`): name, optional shirt number and size. */
  datatype PessoaColeta = PessoaColeta(nome: string, numero: Option<string>, tamanho: Option<string>)

  /** The grouping key of a collection: name, number and size, a missing value read as "". */
  datatype Chave = Chave(nome: string, numero: string, tamanho: string)

  /** Gross total: sum of unit price times quantity over the lines. */
  function TotalBruto(itens: seq<ItemPedido>): (r: real)
    ensures (forall k :: 0 <= k < |itens| ==> itens[k].precoUnitario >= 0.0 && itens[k].quantidade >= 0.0) ==> r >= 0.0
  {
    if itens == [] then 0.0
    else TotalBruto(itens[..|itens| - 1]) + itens[|itens| - 1].precoUnitario * itens[|itens| - 1].quantidade
  }

  /** Sum of the payments recorded against an order. */
  function TotalPago(pagamentos: seq<real>): (r: real)
    ensures (forall k :: 0 <= k < |pagamentos| ==> pagamentos[k] >= 0.0) ==> r >= 0.0
  {
    if pagamentos == [] then 0.0 else TotalPago(pagamentos[..|pagamentos| - 1]) + pagamentos[|pagamentos| - 1]
  }

  lemma TotalPagoAppend(pagamentos: seq<real>, v: real)
    ensures TotalPago(pagamentos + [v]) == TotalPago(pagamentos) + v
  {
    assert (pagamentos + [v])[..|pagamentos|] == pagamentos;
  }

  /**
   * `Pedido.total_com_descontos`: the gross total raised by the surcharge and
   * lowered by the discount, each applied only when non-zero, as factors,
   * then rounded to cents.
   */
  function TotalComDescontos(bruto: real, descPct: real, acrPct: real): (t: real)
    ensures OnGrid(t, Cents)
    ensures -0.5 <= Scaled(t - bruto * (1.0 + acrPct / 100.0) * (1.0 - descPct / 100.0), Cents) <= 0.5
  {
    var comAcr := if acrPct != 0.0 then bruto * (1.0 + acrPct / 100.0) else bruto;
    var comDesc := if descPct != 0.0 then comAcr * (1.0 - descPct / 100.0) else comAcr;
    Quantize(comDesc, Cents)
  }

  /** The quote totals of the quote pages: discount value, surcharge value and total. */
  datatype Totais = Totais(valDesc: real, valAcr: real, total: real)

  /**
   * The quote pages compute the discount and the surcharge as rounded amounts
   * of the subtotal and ADD them, where `total_com_descontos` multiplies factors.
   */
  function TotaisOrcamento(subtotal: real, descPct: real, acrPct: real): (r: Totais)
    ensures OnGrid(r.valDesc, Cents) && OnGrid(r.valAcr, Cents) && OnGrid(r.total, Cents)
    ensures -0.5 <= Scaled(r.valDesc - subtotal * descPct / 100.0, Cents) <= 0.5
    ensures -0.5 <= Scaled(r.valAcr - subtotal * acrPct / 100.0, Cents) <= 0.5
  {
    var valDesc := Quantize(subtotal * (descPct / 100.0), Cents);
    var valAcr := Quantize(subtotal * (acrPct / 100.0), Cents);
    Totais(valDesc, valAcr, Quantize(subtotal - valDesc + valAcr, Cents))
  }

  /** On a subtotal in whole cents the final rounding is exact: total = subtotal - discount + surcharge. */
  lemma TotaisOrcamentoSomam(subtotal: real, descPct: real, acrPct: real)
    requires OnGrid(subtotal, Cents)
    ensures var r := TotaisOrcamento(subtotal, descPct, acrPct); r.total == subtotal - r.valDesc + r.valAcr
  {
    var r := TotaisOrcamento(subtotal, descPct, acrPct);
    OnGridAddSub(subtotal, r.valDesc, Cents);
    OnGridAddSub(subtotal - r.valDesc, r.valAcr, Cents);
    QuantizeOnGrid(subtotal - r.valDesc + r.valAcr, Cents);
  }

  /** The two formulas disagree: 100.00 with 10% discount and 10% surcharge is 100.00 on the quote and 99.00 on the order. */
  lemma TotaisDivergem(sub: real)
    requires sub == 100.0
    ensures TotaisOrcamento(sub, 10.0, 10.0).total == 100.0
    ensures TotalComDescontos(sub, 10.0, 10.0) == 99.0
  {
    OnGridInt(10, Cents);
    OnGridInt(100, Cents);
    OnGridInt(99, Cents);
    assert sub * (10.0 / 100.0) == 10.0;
    QuantizeOnGrid(10.0, Cents);
    assert sub * (1.0 + 10.0 / 100.0) * (1.0 - 10.0 / 100.0) == 99.0;
    QuantizeOnGrid(99.0, Cents);
  }

  /** Rounded half of a total: the automatic down payment. */
  function Sinal(total: real): (s: real)
    ensures OnGrid(s, Cents)
    ensures -0.5 <= Scaled(s - total * 0.5, Cents) <= 0.5
  {
    Quantize(total * 0.5, Cents)
  }

  /** For a non-negative total the down payment is between nothing and the total, and half the total to the cent. */
  lemma SinalEhMetade(total: real)
    requires total >= 0.0
    ensures 0.0 <= Sinal(total) <= total
    ensures -0.01 <= 2.0 * Sinal(total) - total <= 0.01
  {
    var s := Sinal(total);
    assert -0.005 <= s - total * 0.5 <= 0.005;
    if total < 0.01 {
      var k := RoundHalfEven(total * 0.5 * 100.0);
      assert 0.0 <= total * 0.5 * 100.0 < 0.5;
      assert k == 0;
      assert s == 0.0;
    }
  }

  /**
   * The public decision rule: a quote can be decided only before its
   * validity date has passed (none means no limit) and while its approval is
   * still pending.
   */
  predicate PodeDecidir(validade: Option<int>, hoje: int, aprovacao: Aprovacao)
  {
    (validade.None? || hoje <= validade.value) && aprovacao == AprovacaoPendente
  }

  /** The signature accepted on approval: a PNG data URL whose payload decodes to some bytes. */
  const PrefixoPng := "data:image/png;base64,"

  /** Key of a collected person: the grouping `aplicar_coleta_no_pedido` performs. */
  function ChaveDe(p: PessoaColeta): Chave
  {
    Chave(p.nome, if p.numero.Some? then p.numero.value else "", if p.tamanho.Some? then p.tamanho.value else "")
  }

  /** A key whose three parts are empty is skipped. */
  predicate Vazia(k: Chave)
  {
    k.nome == "" && k.numero == "" && k.tamanho == ""
  }

  /** Number of people with a key. */
  function Ocorrencias(ps: seq<PessoaColeta>, k: Chave): nat
  {
    if ps == [] then 0 else Ocorrencias(ps[..|ps| - 1], k) + (if ChaveDe(ps[|ps| - 1]) == k then 1 else 0)
  }

  /** The keys in order of first occurrence, as a Python dict keeps them. */
  function Chaves(ps: seq<PessoaColeta>): seq<Chave>
  {
    if ps == [] then []
    else
      var ks := Chaves(ps[..|ps| - 1]);
      var k := ChaveDe(ps[|ps| - 1]);
      if k in ks then ks else ks + [k]
  }

  /** The `bucket` dict: for each key present, how many people have it. */
  function Contagem(ps: seq<PessoaColeta>): map<Chave, nat>
  {
    if ps == [] then map[]
    else
      var m := Contagem(ps[..|ps| - 1]);
      var k := ChaveDe(ps[|ps| - 1]);
      m[k := (if k in m then m[k] else 0) + 1]
  }

  /** No key is listed twice. */
  predicate Distintas(ks: seq<Chave>)
  {
    forall a, b :: 0 <= a < b < |ks| ==> ks[a] != ks[b]
  }

  /** The ordered keys are exactly the keys somebody has, each listed once. */
  lemma {:induction false} ChavesSemRepeticao(ps: seq<PessoaColeta>)
    ensures forall k :: k in Chaves(ps) <==> Ocorrencias(ps, k) > 0
    ensures Distintas(Chaves(ps))
  {
    if ps != [] {
      var init := ps[..|ps| - 1];
      ChavesSemRepeticao(init);
      var ks0 := Chaves(init);
      var k := ChaveDe(ps[|ps| - 1]);
      if k !in ks0 {
        var ks := ks0 + [k];
        assert ks == Chaves(ps);
        forall a, b | 0 <= a < b < |ks| ensures ks[a] != ks[b] {
          assert ks[a] == ks0[a] && ks0[a] in ks0;
          if b < |ks0| {
            assert ks[b] == ks0[b];
            assert ks0[a] != ks0[b];
          } else {
            assert ks[b] == k;
          }
        }
      }
    }
  }

  /** The dict maps exactly the keys somebody has to the number of people having them. */
  lemma {:induction false} ContagemConta(ps: seq<PessoaColeta>)
    ensures forall k :: k in Contagem(ps) <==> Ocorrencias(ps, k) > 0
    ensures forall k :: k in Contagem(ps) ==> Contagem(ps)[k] == Ocorrencias(ps, k)
  {
    if ps != [] {
      ContagemConta(ps[..|ps| - 1]);
    }
  }

  /** How the grouping grows by one person. */
  lemma AgrupaPasso(ps: seq<PessoaColeta>, i: nat)
    requires i < |ps|
    ensures var k := ChaveDe(ps[i]); var m := Contagem(ps[..i]); var ks := Chaves(ps[..i]);
      Contagem(ps[..i + 1]) == m[k := (if k in m then m[k] else 0) + 1]
      && Chaves(ps[..i + 1]) == (if k in ks then ks else ks + [k])
  {
    assert ps[..i + 1][..i] == ps[..i];
  }

  /** Groups the people by key in one pass: the count per key and the keys in first-seen order. */
  method Agrupar(pessoas: seq<PessoaColeta>) returns (bucket: map<Chave, nat>, ordem: seq<Chave>)
    ensures bucket == Contagem(pessoas) && ordem == Chaves(pessoas)
  {
    bucket, ordem := map[], [];
    var i := 0;
    assert pessoas[..i] == [];
    while i < |pessoas|
      invariant 0 <= i <= |pessoas|
      invariant bucket == Contagem(pessoas[..i]) && ordem == Chaves(pessoas[..i])
    {
      var k := ChaveDe(pessoas[i]);
      AgrupaPasso(pessoas, i);
      if k !in ordem {
        ordem := ordem + [k];
      }
      bucket := bucket[k := (if k in bucket then bucket[k] else 0) + 1];
      i := i + 1;
    }
    assert pessoas[..i] == pessoas;
  }

  /** The stored value a filter on the key compares with: an empty part means NULL. */
  function Nulo(s: string): Option<string>
  {
    if s == "" then None else Some(s)
  }

  /** A personalisation line of the target order line that the key's filter selects. */
  predicate Casa(p: Personalizacao, alvo: nat, k: Chave)
  {
    p.item == alvo && p.nome == Nulo(k.nome) && p.numero == Nulo(k.numero) && p.tamanho == Nulo(k.tamanho)
  }

  /** Quantity of a line, a missing quantity read as 0. */
  function Qtd(p: Personalizacao): nat
  {
    if p.quantidade.Some? then p.quantidade.value else 0
  }

  /** Total quantity of the lines a key selects. */
  function QtdPara(ps: seq<Personalizacao>, alvo: nat, k: Chave): nat
  {
    if ps == [] then 0 else QtdPara(ps[..|ps| - 1], alvo, k) + (if Casa(ps[|ps| - 1], alvo, k) then Qtd(ps[|ps| - 1]) else 0)
  }

  /** Index of the first line a key selects (the `.first()` of the filter), if any. */
  function Primeira(ps: seq<Personalizacao>, alvo: nat, k: Chave): (r: Option<nat>)
    ensures r.Some? ==> r.value < |ps| && Casa(ps[r.value], alvo, k)
    ensures r.Some? ==> forall j :: 0 <= j < r.value ==> !Casa(ps[j], alvo, k)
    ensures r.None? ==> forall j :: 0 <= j < |ps| ==> !Casa(ps[j], alvo, k)
  {
    if ps == [] then None
    else if Casa(ps[0], alvo, k) then Some(0)
    else
      var r := Primeira(ps[1..], alvo, k);
      if r.Some? then Some(r.value + 1) else None
  }

  /** Adds `c` to the first line the key selects, or appends a new line with quantity `c`. */
  function Acumula(ps: seq<Personalizacao>, alvo: nat, k: Chave, c: nat): seq<Personalizacao>
  {
    var j := Primeira(ps, alvo, k);
    if j.Some? then ps[j.value := ps[j.value].(quantidade := Some(Qtd(ps[j.value]) + c))]
    else ps + [Personalizacao(alvo, Nulo(k.nome), Nulo(k.numero), Nulo(k.tamanho), Some(c), None, false, None)]
  }

  /** Changing the quantity of one line changes the selected totals of its own key only. */
  lemma {:induction false} QtdParaAtualiza(ps: seq<Personalizacao>, j: nat, novo: nat, alvo: nat, k: Chave)
    requires j < |ps|
    ensures QtdPara(ps[j := ps[j].(quantidade := Some(novo))], alvo, k)
      == QtdPara(ps, alvo, k) - (if Casa(ps[j], alvo, k) then Qtd(ps[j]) else 0) + (if Casa(ps[j], alvo, k) then novo else 0)
  {
    var ps2 := ps[j := ps[j].(quantidade := Some(novo))];
    if j < |ps| - 1 {
      assert ps2[..|ps2| - 1] == ps[..|ps| - 1][j := ps[j].(quantidade := Some(novo))];
      QtdParaAtualiza(ps[..|ps| - 1], j, novo, alvo, k);
    } else {
      assert ps2[..|ps2| - 1] == ps[..|ps| - 1];
    }
  }

  /** Appending a line adds its quantity to the totals of the key it matches. */
  lemma QtdParaAppend(ps: seq<Personalizacao>, p: Personalizacao, alvo: nat, k: Chave)
    ensures QtdPara(ps + [p], alvo, k) == QtdPara(ps, alvo, k) + (if Casa(p, alvo, k) then Qtd(p) else 0)
  {
    assert (ps + [p])[..|ps|] == ps;
  }

  /** One upsert raises the quantity selected by its key by `c` and leaves every other key's total alone. */
  lemma AcumulaQtd(ps: seq<Personalizacao>, alvo: nat, k: Chave, c: nat, k2: Chave)
    ensures QtdPara(Acumula(ps, alvo, k, c), alvo, k2) == QtdPara(ps, alvo, k2) + (if k2 == k then c else 0)
  {
    var j := Primeira(ps, alvo, k);
    if j.Some? {
      QtdParaAtualiza(ps, j.value, Qtd(ps[j.value]) + c, alvo, k2);
      if k2 != k {
        assert !Casa(ps[j.value], alvo, k2) by {
          NuloInjetivo(k, k2);
        }
      }
    } else {
      var p := Personalizacao(alvo, Nulo(k.nome), Nulo(k.numero), Nulo(k.tamanho), Some(c), None, false, None);
      QtdParaAppend(ps, p, alvo, k2);
      if k2 != k {
        NuloInjetivo(k, k2);
      }
    }
  }

  /** Different keys never select the same line. */
  lemma NuloInjetivo(k: Chave, k2: Chave)
    requires k != k2
    ensures Nulo(k.nome) != Nulo(k2.nome) || Nulo(k.numero) != Nulo(k2.numero) || Nulo(k.tamanho) != Nulo(k2.tamanho)
  {
  }

  /** The upserts of `aplicar_coleta_no_pedido` for the keys in order, skipping empty keys. */
  function AplicaChaves(ps: seq<Personalizacao>, alvo: nat, ks: seq<Chave>, cont: map<Chave, nat>): seq<Personalizacao>
  {
    if ks == [] then ps
    else
      var prev := AplicaChaves(ps, alvo, ks[..|ks| - 1], cont);
      var k := ks[|ks| - 1];
      if Vazia(k) then prev else Acumula(prev, alvo, k, if k in cont then cont[k] else 0)
  }

  /** How the upserts grow by one key. */
  lemma AplicaPasso(ps: seq<Personalizacao>, alvo: nat, ks: seq<Chave>, j: nat, cont: map<Chave, nat>)
    requires j < |ks|
    ensures var prev := AplicaChaves(ps, alvo, ks[..j], cont); var k := ks[j];
      AplicaChaves(ps, alvo, ks[..j + 1], cont) == (if Vazia(k) then prev else Acumula(prev, alvo, k, if k in cont then cont[k] else 0))
      && NaoVazias(ks[..j + 1]) == NaoVazias(ks[..j]) + (if Vazia(k) then 0 else 1)
  {
    assert ks[..j + 1][..j] == ks[..j];
  }

  /** Number of keys that are not empty. */
  function NaoVazias(ks: seq<Chave>): nat
  {
    if ks == [] then 0 else NaoVazias(ks[..|ks| - 1]) + (if Vazia(ks[|ks| - 1]) then 0 else 1)
  }

  /**
   * After the upserts of distinct keys, each non-empty key's total has grown by
   * its count and every other key's total is unchanged.
   */
  lemma {:induction false} AplicaChavesQtd(ps: seq<Personalizacao>, alvo: nat, ks: seq<Chave>, cont: map<Chave, nat>, k: Chave)
    requires Distintas(ks)
    ensures QtdPara(AplicaChaves(ps, alvo, ks, cont), alvo, k)
      == QtdPara(ps, alvo, k) + (if k in ks && !Vazia(k) && k in cont then cont[k] else 0)
  {
    if ks != [] {
      var init := ks[..|ks| - 1];
      var last := ks[|ks| - 1];
      AplicaChavesQtd(ps, alvo, init, cont, k);
      assert k in ks <==> k in init || k == last;
      assert last !in init by {
        forall a | 0 <= a < |init| ensures init[a] != last {
          assert init[a] == ks[a];
        }
      }
      if !Vazia(last) {
        AcumulaQtd(AplicaChaves(ps, alvo, init, cont), alvo, last, if last in cont then cont[last] else 0, k);
      }
    }
  }

  /**
   * An order (`Pedido`) with its lines, recorded payments, approval state and
   * the personalisation lines of its order lines.
   */
  class Pedido {
    var empresa: nat
    var status: StatusPedido
    var descontoPercentual: real
    var acrescimoPercentual: real
    var validade: Option<int>
    var itens: seq<ItemPedido>
    var pagamentos: seq<real>
    var aprovacao: Aprovacao
    var aprovacaoNome: Option<string>
    var aprovacaoEmail: Option<string>
    var aprovacaoComentario: Option<string>
    var aprovacaoDecididaEm: Option<int>
    var personalizacoes: seq<Personalizacao>

    constructor (empresa: nat, itens: seq<ItemPedido>, descontoPercentual: real, acrescimoPercentual: real, validade: Option<int>)
      ensures this.empresa == empresa && this.itens == itens && this.descontoPercentual == descontoPercentual
      ensures this.acrescimoPercentual == acrescimoPercentual && this.validade == validade
      ensures status == Orc && pagamentos == [] && aprovacao == AprovacaoPendente && personalizacoes == []
      ensures aprovacaoNome.None? && aprovacaoEmail.None? && aprovacaoComentario.None? && aprovacaoDecididaEm.None?
    {
      this.empresa := empresa;
      this.itens := itens;
      this.descontoPercentual := descontoPercentual;
      this.acrescimoPercentual := acrescimoPercentual;
      this.validade := validade;
      status := Orc;
      pagamentos := [];
      aprovacao := AprovacaoPendente;
      aprovacaoNome := None;
      aprovacaoEmail := None;
      aprovacaoComentario := None;
      aprovacaoDecididaEm := None;
      personalizacoes := [];
    }

    /** `total_com_descontos` of this order. */
    function Total(): real
      reads this
    {
      TotalComDescontos(TotalBruto(itens), descontoPercentual, acrescimoPercentual)
    }

    /** `saldo_restante`: total minus what was paid. */
    function SaldoRestante(): real
      reads this
    {
      Total() - TotalPago(pagamentos)
    }

    /**
     * `registrar_sinal`: unless something positive was already paid, records a
     * payment of half the total (rounded to cents) and moves the order to
     * production.
     */
    method RegistrarSinal()
      modifies this`pagamentos, this`status
      ensures TotalPago(old(pagamentos)) > 0.0 ==> pagamentos == old(pagamentos) && status == old(status)
      ensures TotalPago(old(pagamentos)) <= 0.0 ==> pagamentos == old(pagamentos) + [Sinal(Total())] && status == Prod
    {
      if TotalPago(pagamentos) > 0.0 {
        return;
      }
      pagamentos := pagamentos + [Sinal(Total())];
      status := Prod;
    }

    /**
     * `registrar_saldo_final`: when something is still owed, records a payment
     * of exactly the remaining balance, which settles the order, and marks it
     * invoiced.
     */
    method RegistrarSaldoFinal()
      modifies this`pagamentos, this`status
      ensures old(SaldoRestante()) <= 0.0 ==> pagamentos == old(pagamentos) && status == old(status)
      ensures old(SaldoRestante()) > 0.0 ==>
        pagamentos == old(pagamentos) + [old(SaldoRestante())] && status == Fat && SaldoRestante() == 0.0
    {
      var saldo := SaldoRestante();
      if saldo <= 0.0 {
        return;
      }
      TotalPagoAppend(pagamentos, saldo);
      pagamentos := pagamentos + [saldo];
      status := Fat;
    }

    /**
     * The POST branch of the public quote page. Outside the decision window
     * nothing changes. "approve" needs a PNG data URL whose payload decodes to
     * some bytes (`decodifica` stands for base64 decoding); it sets APRV,
     * moves ORC to PEN and keeps any other status. Any other decision rejects.
     */
    method DecidirPublico(hoje: int, agora: int, decisao: string, assinatura: string, nome: string,
                          email: Option<string>, comentario: Option<string>,
                          decodifica: string -> Option<seq<bv8>>)
      returns (r: Result<()>)
      modifies this`aprovacao, this`status, this`aprovacaoNome, this`aprovacaoEmail,
               this`aprovacaoComentario, this`aprovacaoDecididaEm
      ensures !PodeDecidir(old(validade), hoje, old(aprovacao)) ==>
        r.Err? && aprovacao == old(aprovacao) && status == old(status) && aprovacaoDecididaEm == old(aprovacaoDecididaEm)
      ensures PodeDecidir(old(validade), hoje, old(aprovacao)) && decisao == "approve" && !AssinaturaValida(assinatura, decodifica) ==>
        r.Err? && aprovacao == old(aprovacao) && status == old(status) && aprovacaoDecididaEm == old(aprovacaoDecididaEm)
      ensures PodeDecidir(old(validade), hoje, old(aprovacao)) && decisao == "approve" && AssinaturaValida(assinatura, decodifica) ==>
        r.Ok? && aprovacao == Aprovado && aprovacaoDecididaEm == Some(agora)
        && status == (if old(status) == Orc then Pen else old(status))
        && aprovacaoNome == Some(if nome == "" then "Cliente" else nome)
        && aprovacaoEmail == email && aprovacaoComentario == comentario
      ensures PodeDecidir(old(validade), hoje, old(aprovacao)) && decisao != "approve" ==>
        r.Ok? && aprovacao == Recusado && aprovacaoDecididaEm == Some(agora) && status == old(status)
        && aprovacaoNome == (if nome == "" then None else Some(nome))
        && aprovacaoEmail == email && aprovacaoComentario == comentario
    {
      if !PodeDecidir(validade, hoje, aprovacao) {
        return Err("Orçamento não pode mais ser decidido.");
      }
      if decisao == "approve" {
        if !AssinaturaValida(assinatura, decodifica) {
          return Err("Assinatura ausente.");
        }
        aprovacaoNome := Some(if nome == "" then "Cliente" else nome);
        aprovacaoEmail := email;
        aprovacaoComentario := comentario;
        aprovacaoDecididaEm := Some(agora);
        aprovacao := Aprovado;
        status := if status == Orc then Pen else status;
      } else {
        aprovacao := Recusado;
        aprovacaoNome := if nome == "" then None else Some(nome);
        aprovacaoEmail := email;
        aprovacaoComentario := comentario;
        aprovacaoDecididaEm := Some(agora);
      }
      r := Ok(());
    }

    /**
     * `aplicar_coleta_no_pedido`: groups the people by key, then for every
     * non-empty key adds its count to the first matching personalisation line
     * of the order's first line, or creates one; returns how many keys were
     * applied, and 0 when the order has no line.
     */
    method AplicarColeta(pessoas: seq<PessoaColeta>) returns (aplicadas: nat)
      modifies this`personalizacoes
      ensures itens == [] ==> aplicadas == 0 && personalizacoes == old(personalizacoes)
      ensures itens != [] ==> (aplicadas == NaoVazias(Chaves(pessoas))
        && personalizacoes == AplicaChaves(old(personalizacoes), itens[0].id, Chaves(pessoas), Contagem(pessoas)))
    {
      if itens == [] {
        return 0;
      }
      var alvo := itens[0].id;
      var bucket, ordem := Agrupar(pessoas);
      aplicadas := 0;
      var j := 0;
      assert ordem[..j] == [];
      while j < |ordem|
        invariant 0 <= j <= |ordem|
        invariant aplicadas == NaoVazias(ordem[..j])
        invariant personalizacoes == AplicaChaves(old(personalizacoes), alvo, ordem[..j], bucket)
      {
        var k := ordem[j];
        AplicaPasso(old(personalizacoes), alvo, ordem, j, bucket);
        if !Vazia(k) {
          personalizacoes := Acumula(personalizacoes, alvo, k, if k in bucket then bucket[k] else 0);
          aplicadas := aplicadas + 1;
        }
        j := j + 1;
      }
      assert ordem[..j] == ordem;
    }
  }

  /** The signature check of an approval: the PNG data-URL prefix and a non-empty decoded payload. */
  predicate AssinaturaValida(assinatura: string, decodifica: string -> Option<seq<bv8>>)
  {
    |PrefixoPng| <= |assinatura| && assinatura[..|PrefixoPng|] == PrefixoPng
    && var img := decodifica(assinatura[|PrefixoPng|..]); img.Some? && img.value != []
  }

  /**
   * What a collection does to the order's personalisation totals: each
   * non-empty key's quantity grows by the number of people with that key,
   * and nothing else changes.
   */
  lemma ColetaSomaPessoas(ps: seq<Personalizacao>, alvo: nat, pessoas: seq<PessoaColeta>, k: Chave)
    ensures QtdPara(AplicaChaves(ps, alvo, Chaves(pessoas), Contagem(pessoas)), alvo, k)
      == QtdPara(ps, alvo, k) + (if Vazia(k) then 0 else Ocorrencias(pessoas, k))
  {
    ChavesSemRepeticao(pessoas);
    ContagemConta(pessoas);
    AplicaChavesQtd(ps, alvo, Chaves(pessoas), Contagem(pessoas), k);
  }
}
