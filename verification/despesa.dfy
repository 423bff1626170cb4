/**
 * Expenses and their instalments: the status an expense takes from its
 * instalments (`sync_status_from_parcelas`), the total recomputed from them
 * (`recalc_from_parcelas`), paying one instalment (`marcar_paga`), and the
 * automatic split of a new expense into `n` instalments 30 days apart.
 * Dates are day numbers; instants are integers supplied by the caller.
 */
module Despesas {
  import opened Wrappers
  import opened Decimal

  /** PEN, PAGA and CANC, for the expense as for each instalment. */
  datatype Status = Pendente | Paga | Cancelada

  /** One `ParcelaDespesa` row. */
  datatype Parcela = Parcela(numero: nat, vencimento: int, valor: real, status: Status, pagoEm: Option<int>)

  /** The instalments' amounts, in order. */
  function Valores(ps: seq<Parcela>): (vs: seq<real>)
    ensures |vs| == |ps|
    ensures forall k :: 0 <= k < |ps| ==> vs[k] == ps[k].valor
  {
    if ps == [] then [] else Valores(ps[..|ps| - 1]) + [ps[|ps| - 1].valor]
  }

  /** How many instalments have status st (`qs.filter(status=st).count()`). */
  function Contar(ps: seq<Parcela>, st: Status): (c: nat)
    ensures c <= |ps|
  {
    if ps == [] then 0
    else Contar(ps[..|ps| - 1], st) + (if ps[|ps| - 1].status == st then 1 else 0)
  }

  /** The count reaches the number of instalments exactly when every instalment has that status. */
  lemma {:induction false} ContarTodas(ps: seq<Parcela>, st: Status)
    ensures Contar(ps, st) == |ps| <==> forall k :: 0 <= k < |ps| ==> ps[k].status == st
  {
    if ps != [] {
      var init := ps[..|ps| - 1];
      ContarTodas(init, st);
      assert forall k :: 0 <= k < |init| ==> init[k] == ps[k];
    }
  }

  /**
   * The status `sync_status_from_parcelas` leaves: the current one when there is
   * no instalment, else PAGA when the paid count is the total count, else CANC
   * when the cancelled count is, else PEN.
   */
  function StatusPorParcelas(ps: seq<Parcela>, atual: Status): Status
  {
    if ps == [] then atual
    else if Contar(ps, Paga) == |ps| then Paga
    else if Contar(ps, Cancelada) == |ps| then Cancelada
    else Pendente
  }

  /**
   * What the derived status means: with no instalment nothing changes; PAGA iff
   * every instalment is paid; CANC iff every one is cancelled; PEN iff some
   * instalment is unpaid and some is not cancelled.
   */
  lemma StatusPorParcelasSignifica(ps: seq<Parcela>, atual: Status)
    ensures ps == [] ==> StatusPorParcelas(ps, atual) == atual
    ensures ps != [] ==>
      (StatusPorParcelas(ps, atual) == Paga <==> forall k :: 0 <= k < |ps| ==> ps[k].status == Paga)
    ensures ps != [] ==>
      (StatusPorParcelas(ps, atual) == Cancelada <==> forall k :: 0 <= k < |ps| ==> ps[k].status == Cancelada)
    ensures ps != [] ==>
      (StatusPorParcelas(ps, atual) == Pendente <==>
        (exists i :: 0 <= i < |ps| && ps[i].status != Paga) && (exists j :: 0 <= j < |ps| && ps[j].status != Cancelada))
  {
    ContarTodas(ps, Paga);
    ContarTodas(ps, Cancelada);
    if ps != [] {
      assert ps[0].status != Paga || ps[0].status != Cancelada;
    }
  }

  /** Instalment k after `marcar_paga(when)`: PAGA, paid at `when`, or at `agora` when no instant is given. */
  function Quitada(p: Parcela, quando: Option<int>, agora: int): (q: Parcela)
    ensures q.status == Paga && q.numero == p.numero && q.vencimento == p.vencimento && q.valor == p.valor
    ensures q.pagoEm == Some(if quando.Some? then quando.value else agora)
  {
    p.(status := Paga, pagoEm := Some(if quando.Some? then quando.value else agora))
  }

  /**
   * Paying one instalment leaves the expense PAGA when every other instalment
   * was already paid, and PEN otherwise, whatever its status was (a fully
   * cancelled expense whose instalment is paid becomes PEN).
   */
  lemma StatusAposPagar(ps: seq<Parcela>, k: nat, p: Parcela, qs: seq<Parcela>, atual: Status)
    requires k < |ps| && p.status == Paga && qs == ps[k := p]
    ensures StatusPorParcelas(qs, atual)
         == (if forall j :: 0 <= j < |qs| && j != k ==> qs[j].status == Paga then Paga else Pendente)
  {
    StatusPorParcelasSignifica(qs, atual);
    assert qs[k].status != Cancelada;
    if forall j :: 0 <= j < |qs| && j != k ==> qs[j].status == Paga {
      assert forall j :: 0 <= j < |qs| ==> qs[j].status == Paga;
    } else {
      var j :| 0 <= j < |qs| && j != k && qs[j].status != Paga;
      assert qs[j].status != Paga;
    }
  }

  /** No two instalments of an expense share a number (`unique_together (despesa, numero)`). */
  predicate NumerosUnicos(ps: seq<Parcela>)
  {
    forall i, j :: 0 <= i < j < |ps| ==> ps[i].numero != ps[j].numero
  }

  // ---- automatic split of a new expense ----

  /** `parcelas_qty or 1`: an absent or zero quantity means one instalment. */
  function Quantidade(qty: Option<nat>): (n: nat)
    ensures n >= 1
    ensures qty.Some? && qty.value >= 1 ==> n == qty.value
  {
    if qty.Some? && qty.value != 0 then qty.value else 1
  }

  /** `primeira_parcela or vencimento or data_emissao`. */
  function PrimeiroVencimento(primeira: Option<int>, vencimento: Option<int>, emissao: int): (d: int)
    ensures primeira.Some? ==> d == primeira.value
    ensures primeira.None? && vencimento.Some? ==> d == vencimento.value
    ensures primeira.None? && vencimento.None? ==> d == emissao
  {
    if primeira.Some? then primeira.value else if vencimento.Some? then vencimento.value else emissao
  }

  /** m copies of q. */
  function Repete(q: real, m: nat): (r: seq<real>)
    ensures |r| == m && forall k :: 0 <= k < m ==> r[k] == q
  {
    seq(m, _ => q)
  }

  lemma {:induction false} SumRepete(q: real, m: nat)
    ensures Sum(Repete(q, m)) == q * m as real
  {
    if m > 0 {
      SumRepete(q, m - 1);
      assert Repete(q, m)[..m - 1] == Repete(q, m - 1);
    }
  }

  /** n-1 copies of the quota, then the rest of the total on the last instalment. */
  function Dividir(total: real, quota: real, n: nat): (r: seq<real>)
    requires n >= 1
    ensures |r| == n
    ensures forall k :: 0 <= k < n - 1 ==> r[k] == quota
    ensures r[n - 1] == total - quota * (n - 1) as real
  {
    Repete(quota, n - 1) + [total - quota * (n - 1) as real]
  }

  /** Whatever the quota, the instalments add up to the total exactly. */
  lemma DividirSoma(total: real, quota: real, n: nat)
    requires n >= 1
    ensures Sum(Dividir(total, quota, n)) == total
  {
    SumAppend(Repete(quota, n - 1), total - quota * (n - 1) as real);
    SumRepete(quota, n - 1);
  }

  /** The quota as the view computes it: `(total / n).quantize(Decimal("0.01"))`, half to even. */
  function CotaComoEscrita(total: real, n: nat): (q: real)
    requires n >= 1
    ensures OnGrid(q, Cents) && -0.5 <= (q - total / n as real) * 100.0 <= 0.5
  {
    Quantize(total / n as real, Cents)
  }

  /** The instalment amounts as the view writes them. */
  function ValoresComoEscritos(total: real, n: nat): (r: seq<real>)
    requires n >= 1
    ensures |r| == n && Sum(r) == total
  {
    DividirSoma(total, CotaComoEscrita(total, n), n);
    Dividir(total, CotaComoEscrita(total, n), n)
  }

  /**
   * Splitting R$ 0.10 in 12: the quota rounds up to 0.01, so the first eleven
   * instalments take 0.11 and the last one is -0.01.
   */
  lemma UltimaNegativa()
    ensures ValoresComoEscritos(0.10, 12)[11] == -0.01
  {
    var x := 0.10 / 12 as real;
    assert Scaled(x, Cents) == 10.0 / 12.0;
    RoundHalfEvenUnique(10.0 / 12.0, 1);
    assert CotaComoEscrita(0.10, 12) == 0.01;
  }

  /** Multiplying both sides by a positive factor keeps the order. */
  lemma MultiplicaOrdem(a: real, b: real, m: real)
    requires a <= b && m > 0.0
    ensures a * m <= b * m
    ensures a < b ==> a * m < b * m
  {
  }

  /** The quota rounded down to the cent (`ROUND_FLOOR`), so the last instalment never takes less than the others. */
  function CotaPiso(total: real, n: nat): (q: real)
    requires n >= 1
    ensures OnGrid(q, Cents)
    ensures q * n as real <= total && total - q * n as real < 0.01 * n as real
  {
    var x := total / n as real;
    var c := (x * 100.0).Floor;
    var q := c as real / 100.0;
    assert q * 100.0 == c as real;
    assert q <= x < q + 0.01;
    MultiplicaOrdem(q, x, n as real);
    MultiplicaOrdem(x, q + 0.01, n as real);
    assert (q + 0.01) * n as real == q * n as real + 0.01 * n as real;
    var nr := n as real;
    assert x * nr == total;
    assert x * nr < q * nr + 0.01 * nr;
    assert total < q * nr + 0.01 * nr;
    q
  }

  /** The instalment amounts with the quota rounded down. */
  function ValoresPiso(total: real, n: nat): (r: seq<real>)
    requires n >= 1
    ensures |r| == n && Sum(r) == total
  {
    DividirSoma(total, CotaPiso(total, n), n);
    Dividir(total, CotaPiso(total, n), n)
  }

  /** With the quota rounded down, a non-negative total gives non-negative instalments, the last one the largest. */
  lemma ValoresPisoNaoNegativos(total: real, n: nat)
    requires n >= 1 && total >= 0.0
    ensures forall k :: 0 <= k < n ==> 0.0 <= ValoresPiso(total, n)[k] <= ValoresPiso(total, n)[n - 1]
  {
    var q := CotaPiso(total, n);
    var c := (total / n as real * 100.0).Floor;
    assert total / n as real * 100.0 >= 0.0;
    assert q == c as real / 100.0;
    assert ValoresPiso(total, n)[n - 1] == q + (total - q * n as real);
  }

  /** With the quota rounded down, the last instalment exceeds the others by less than one cent per instalment. */
  lemma ValoresPisoProximos(total: real, n: nat)
    requires n >= 2
    ensures ValoresPiso(total, n)[n - 1] - ValoresPiso(total, n)[0] < 0.01 * n as real
  {
    var q := CotaPiso(total, n);
    assert ValoresPiso(total, n)[n - 1] == q + (total - q * n as real);
  }

  /**
   * The split with the smallest correction: the view's own split whenever its
   * last instalment is not negative (or the total itself is negative), and
   * the split with the quota rounded down otherwise.
   */
  function ValoresCorrigidos(total: real, n: nat): (r: seq<real>)
    requires n >= 1
    ensures |r| == n && Sum(r) == total
  {
    var v := ValoresComoEscritos(total, n);
    if total < 0.0 || v[n - 1] >= 0.0 then v else ValoresPiso(total, n)
  }

  /** The correction changes the view's split exactly when the total is non-negative and its last instalment is negative. */
  lemma ValoresCorrigidosConcordam(total: real, n: nat)
    requires n >= 1
    ensures ValoresCorrigidos(total, n) == ValoresComoEscritos(total, n)
        <==> total < 0.0 || ValoresComoEscritos(total, n)[n - 1] >= 0.0
  {
    var v := ValoresComoEscritos(total, n);
    if total >= 0.0 && v[n - 1] < 0.0 {
      ValoresPisoNaoNegativos(total, n);
      assert ValoresCorrigidos(total, n)[n - 1] != v[n - 1];
    }
  }

  /** R$ 200.00 in 3 is split as the view splits it: 66.67, 66.67 and 66.66. */
  lemma DuzentosEmTres()
    ensures ValoresCorrigidos(200.0, 3) == [66.67, 66.67, 66.66]
  {
    var x := 200.0 / 3 as real;
    assert Scaled(x, Cents) == 20000.0 / 3.0;
    RoundHalfEvenUnique(20000.0 / 3.0, 6667);
    assert CotaComoEscrita(200.0, 3) == 66.67;
    ValoresCorrigidosConcordam(200.0, 3);
  }

  /** The half-even quota of a non-negative total is not negative. */
  lemma CotaComoEscritaNaoNegativa(total: real, n: nat)
    requires n >= 1 && total >= 0.0
    ensures CotaComoEscrita(total, n) >= 0.0
  {
    var q := CotaComoEscrita(total, n);
    assert total / n as real >= 0.0;
    assert q * 100.0 >= -0.5;
    assert (q * 100.0).Floor >= 0;
  }

  /** The corrected split of a non-negative total has no negative instalment. */
  lemma ValoresCorrigidosNaoNegativos(total: real, n: nat)
    requires n >= 1 && total >= 0.0
    ensures forall k :: 0 <= k < n ==> ValoresCorrigidos(total, n)[k] >= 0.0
  {
    var v := ValoresComoEscritos(total, n);
    if v[n - 1] >= 0.0 {
      CotaComoEscritaNaoNegativa(total, n);
      assert forall k :: 0 <= k < n - 1 ==> v[k] == CotaComoEscrita(total, n);
    } else {
      ValoresPisoNaoNegativos(total, n);
    }
  }

  /** Both quotas are within a cent of total / n, so the last instalment differs from the others by less than a cent per instalment. */
  lemma ValoresCorrigidosProximos(total: real, n: nat)
    requires n >= 2
    ensures var v := ValoresCorrigidos(total, n);
      -0.01 * n as real < v[n - 1] - v[0] < 0.01 * n as real
  {
    var w := ValoresComoEscritos(total, n);
    if total < 0.0 || w[n - 1] >= 0.0 {
      var q := CotaComoEscrita(total, n);
      CotaComoEscritaProxima(total, n);
      assert w[n - 1] - w[0] == total - q * n as real;
    } else {
      ValoresPisoProximos(total, n);
      ValoresPisoNaoNegativos(total, n);
    }
  }

  /** A quota within half a cent of total / n, taken n times, is within half a cent per instalment of the total. */
  lemma MeioCentavoPorParcela(total: real, q: real, nr: real)
    requires nr >= 1.0 && -0.5 <= (q - total / nr) * 100.0 <= 0.5
    ensures -0.005 * nr <= q * nr - total <= 0.005 * nr
  {
    var d := q - total / nr;
    assert -0.005 <= d <= 0.005;
    assert d * nr == q * nr - total;
    MultiplicaOrdem(d, 0.005, nr);
    MultiplicaOrdem(-0.005, d, nr);
  }

  /** n half-even quotas are within half a cent per instalment of the total. */
  lemma CotaComoEscritaProxima(total: real, n: nat)
    requires n >= 1
    ensures -0.005 * n as real <= CotaComoEscrita(total, n) * n as real - total <= 0.005 * n as real
  {
    MeioCentavoPorParcela(total, CotaComoEscrita(total, n), n as real);
  }

  /** A total in whole cents split by a quota in whole cents gives amounts in whole cents. */
  lemma DividirEmCentavos(total: real, q: real, n: nat)
    requires n >= 1 && OnGrid(total, Cents) && OnGrid(q, Cents)
    ensures forall k :: 0 <= k < n ==> OnGrid(Dividir(total, q, n)[k], Cents)
  {
    var p := q * (n - 1) as real;
    OnGridTimesNat(q, n - 1, p, Cents);
    OnGridAddSub(total, p, Cents);
    var v := Dividir(total, q, n);
    forall k | 0 <= k < n
      ensures OnGrid(v[k], Cents)
    {
      if k < n - 1 {
        assert v[k] == q;
      } else {
        assert v[k] == total - p;
      }
    }
  }

  /** A total in whole cents splits into amounts in whole cents. */
  lemma ValoresCorrigidosEmCentavos(total: real, n: nat)
    requires n >= 1 && OnGrid(total, Cents)
    ensures forall k :: 0 <= k < n ==> OnGrid(ValoresCorrigidos(total, n)[k], Cents)
  {
    var w := ValoresComoEscritos(total, n);
    if total < 0.0 || w[n - 1] >= 0.0 {
      DividirEmCentavos(total, CotaComoEscrita(total, n), n);
    } else {
      DividirEmCentavos(total, CotaPiso(total, n), n);
    }
  }

  /** Instalment i (from 1) of the split: its number, a due date 30 days after the previous one, its amount, pending. */
  function Plano(valores: seq<real>, primeira: int): (ps: seq<Parcela>)
    ensures |ps| == |valores|
    ensures forall k :: 0 <= k < |ps| ==> ps[k] == Parcela(k + 1, primeira + 30 * k, valores[k], Pendente, None)
  {
    seq(|valores|, k requires 0 <= k < |valores| => Parcela(k + 1, primeira + 30 * k, valores[k], Pendente, None))
  }

  /** The planned instalments are numbered 1..n without repetition, carry the amounts and sum to their total. */
  lemma PlanoSao(valores: seq<real>, primeira: int)
    ensures NumerosUnicos(Plano(valores, primeira))
    ensures Valores(Plano(valores, primeira)) == valores
    ensures |valores| >= 1 ==> StatusPorParcelas(Plano(valores, primeira), Paga) == Pendente
  {
    var ps := Plano(valores, primeira);
    StatusPorParcelasSignifica(ps, Paga);
    if |valores| >= 1 {
      assert ps[0].status == Pendente;
    }
  }

  /** A `Despesa` row with its instalments. */
  class Despesa {
    var valorTotal: real
    var status: Status
    var vencimento: Option<int>
    var dataEmissao: int
    var parcelas: seq<Parcela>

    ghost predicate Valid()
      reads this
    {
      NumerosUnicos(parcelas)
    }

    /** A saved expense with no instalment yet. */
    constructor (valorTotal: real, status: Status, vencimento: Option<int>, dataEmissao: int)
      ensures Valid()
      ensures this.valorTotal == valorTotal && this.status == status && this.parcelas == []
      ensures this.vencimento == vencimento && this.dataEmissao == dataEmissao
    {
      this.valorTotal := valorTotal;
      this.status := status;
      this.vencimento := vencimento;
      this.dataEmissao := dataEmissao;
      this.parcelas := [];
    }

    /** `sync_status_from_parcelas`: the status follows the instalments; nothing else changes. */
    method SincronizarStatus()
      modifies this
      ensures status == StatusPorParcelas(parcelas, old(status))
      ensures parcelas == old(parcelas) && valorTotal == old(valorTotal)
      ensures vencimento == old(vencimento) && dataEmissao == old(dataEmissao)
    {
      if parcelas == [] {
        return;
      }
      var pagas, canceladas, i := 0, 0, 0;
      while i < |parcelas|
        invariant i <= |parcelas|
        invariant pagas == Contar(parcelas[..i], Paga) && canceladas == Contar(parcelas[..i], Cancelada)
      {
        assert parcelas[..i + 1][..i] == parcelas[..i];
        if parcelas[i].status == Paga {
          pagas := pagas + 1;
        } else if parcelas[i].status == Cancelada {
          canceladas := canceladas + 1;
        }
        i := i + 1;
      }
      assert parcelas[..i] == parcelas;
      var novo := if pagas == |parcelas| then Paga else if canceladas == |parcelas| then Cancelada else Pendente;
      if novo != status {
        status := novo;
      }
    }

    /** `recalc_from_parcelas`: the total becomes the sum of the instalments (0 when there is none). */
    method RecalcularDeParcelas()
      modifies this
      ensures valorTotal == Sum(Valores(parcelas))
      ensures parcelas == old(parcelas) && status == old(status)
      ensures vencimento == old(vencimento) && dataEmissao == old(dataEmissao)
    {
      var total, i := 0.0, 0;
      while i < |parcelas|
        invariant i <= |parcelas|
        invariant total == Sum(Valores(parcelas[..i]))
      {
        assert parcelas[..i + 1][..i] == parcelas[..i];
        total := total + parcelas[i].valor;
        i := i + 1;
      }
      assert parcelas[..i] == parcelas;
      valorTotal := total;
    }

    /** `ParcelaDespesa.marcar_paga` on instalment k, then the expense's status sync. */
    method MarcarParcelaPaga(k: nat, quando: Option<int>, agora: int)
      requires k < |parcelas|
      requires Valid()
      modifies this
      ensures Valid()
      ensures parcelas == old(parcelas)[k := Quitada(old(parcelas)[k], quando, agora)]
      ensures status == (if forall j :: 0 <= j < |parcelas| && j != k ==> parcelas[j].status == Paga then Paga else Pendente)
      ensures valorTotal == old(valorTotal)
    {
      var p := Quitada(parcelas[k], quando, agora);
      StatusAposPagar(parcelas, k, p, parcelas[k := p], status);
      parcelas := parcelas[k := p];
      SincronizarStatus();
    }

    /**
     * The split `despesa_create` performs after saving a new expense: with
     * more than one instalment, rows numbered 1..n due every 30 days from the
     * first due date, then the status sync, which makes the expense PEN.
     * The amounts are `ValoresCorrigidos`: the view's half-even split, except
     * where that split would leave the last instalment negative.
     */
    method Parcelar(qty: Option<nat>, primeira: Option<int>)
      requires parcelas == []
      modifies this
      ensures Valid()
      ensures var n := Quantidade(qty);
        n > 1 ==> parcelas == Plano(ValoresCorrigidos(old(valorTotal), n), PrimeiroVencimento(primeira, vencimento, dataEmissao))
                  && status == Pendente
      ensures Quantidade(qty) == 1 ==> parcelas == [] && status == old(status)
      ensures valorTotal == old(valorTotal) && vencimento == old(vencimento) && dataEmissao == old(dataEmissao)
    {
      var n := Quantidade(qty);
      var first := PrimeiroVencimento(primeira, vencimento, dataEmissao);
      if n > 1 {
        var vals := ValoresCorrigidos(valorTotal, n);
        var i := 0;
        while i < n
          invariant i <= n && valorTotal == old(valorTotal) && vencimento == old(vencimento) && dataEmissao == old(dataEmissao)
          invariant parcelas == Plano(vals, first)[..i]
        {
          parcelas := parcelas + [Parcela(i + 1, first + 30 * i, vals[i], Pendente, None)];
          i := i + 1;
        }
        assert parcelas == Plano(vals, first);
        PlanoSao(vals, first);
        SincronizarStatus();
      }
    }

    /**
     * `despesa_update`: the form's total and status, then the formset's
     * instalments; when at least one instalment remains, the total becomes
     * their sum and the status follows them.
     */
    method Atualizar(novoTotal: real, novoStatus: Status, novas: seq<Parcela>)
      requires NumerosUnicos(novas)
      modifies this
      ensures Valid() && parcelas == novas
      ensures novas == [] ==> valorTotal == novoTotal && status == novoStatus
      ensures novas != [] ==> valorTotal == Sum(Valores(novas)) && status == StatusPorParcelas(novas, novoStatus)
    {
      valorTotal := novoTotal;
      status := novoStatus;
      parcelas := novas;
      if parcelas != [] {
        RecalcularDeParcelas();
        SincronizarStatus();
      }
    }
  }
}
