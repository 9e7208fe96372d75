/** Purchases in the ledger: what registering and deleting one does to the invoices. */
module LivroCompras {
  import opened Centavos
  import opened Calendario
  import opened CicloCartao
  import opened Tabelas
  import opened Fatura
  import opened Livro
  import opened LivroInvariante

  // ----- the total of an invoice with payments -----

  lemma {:induction false} TotalOfConcat(s: seq<Compra>, t: seq<Compra>)
    ensures SomaCompras(s + t) == SomaCompras(s) + SomaCompras(t)
  {
    if t == [] {
      assert s + t == s;
    } else {
      TotalOfConcat(s, t[..|t| - 1]);
      assert (s + t)[..|s + t| - 1] == s + t[..|t| - 1];
    }
  }

  lemma {:induction false} PositiveTotal(s: seq<Compra>)
    requires forall c :: c in s ==> c.valor > 0
    ensures SomaCompras(s) >= 0 && (SomaCompras(s) == 0 <==> s == [])
  {
    if s != [] {
      PositiveTotal(s[..|s| - 1]);
      assert s[|s| - 1] in s;
    }
  }

  lemma {:induction false} OneOfTotal(s: seq<Compra>, c: Compra)
    requires c in s && forall x :: x in s ==> x.valor > 0
    ensures SomaCompras(s) >= c.valor
  {
    var r := s[..|s| - 1];
    PositiveTotal(r);
    assert s == r + [s[|s| - 1]];
    if c in r {
      OneOfTotal(r, c);
    }
  }

  predicate AtingeFatura(ps: seq<Parcela>, v: Data) {
    exists i :: 0 <= i < |ps| && ps[i].vencimento == v
  }

  lemma AddedTotal(s: seq<Compra>, novas: seq<Compra>, cartao: int, v: Data)
    requires forall c :: c in novas ==> c.valor > 0
    ensures var antes, depois := SomaCompras(ComprasDaFatura(s, cartao, v)),
                                 SomaCompras(ComprasDaFatura(s + novas, cartao, v));
            antes <= depois && (antes == depois <==> !TemFatura(novas, cartao, v))
  {
    var f := (c: Compra) => c.cartao == cartao && c.vencimento == v;
    FilterOfConcat(s, novas, f);
    TotalOfConcat(Filtrar(s, f), Filtrar(novas, f));
    FilteredRows(novas, f);
    PositiveTotal(Filtrar(novas, f));
    if Filtrar(novas, f) != [] {
      assert Filtrar(novas, f)[0] in novas && NaFatura(Filtrar(novas, f)[0], cartao, v);
    }
  }

  lemma NewRows(cartao: int, grupo: int, data: Data, ps: seq<Parcela>, v: Data)
    requires forall i :: 0 <= i < |ps| ==> ps[i].valor >= 1
    ensures var novas := NovasCompras(cartao, grupo, data, ps);
            (forall c :: c in novas ==> c.valor > 0) && (TemFatura(novas, cartao, v) <==> AtingeFatura(ps, v))
  {
    var novas := NovasCompras(cartao, grupo, data, ps);
    if AtingeFatura(ps, v) {
      var i :| 0 <= i < |ps| && ps[i].vencimento == v;
      assert novas[i] in novas && NaFatura(novas[i], cartao, v);
    }
    if TemFatura(novas, cartao, v) {
      var c :| c in novas && NaFatura(c, cartao, v);
      var i :| 0 <= i < |novas| && novas[i] == c;
      assert ps[i].vencimento == v;
    }
  }

  /** No second or later instalment of a purchase first due on `primeira` is filed under v. */
  predicate NaoVoltaEm(primeira: Data, n: int, v: Data) {
    forall i :: 1 <= i < n ==> AddMonthsClamped(primeira, i) != v
  }

  /** A purchase the service accepts leaves the total of an invoice with payments as it was exactly
      when none of its later instalments is filed there: only the first instalment's invoice is
      checked for payments. Otherwise the total of the paid invoice rises. */
  lemma PurchaseSparesPaidTotalIff(b: Banco, cartao: int, valor: int, data: Data, parcelas: int, descricao: string,
                                   v: Data)
    requires TemPagamento(b, cartao, v) && RegistrarCompraSpec(b, cartao, valor, data, parcelas, descricao).1.Ok?
    ensures var novo := RegistrarCompraSpec(b, cartao, valor, data, parcelas, descricao).0;
            var antes, depois := SomaCompras(ComprasDaFatura(b.compras, cartao, v)),
                                 SomaCompras(ComprasDaFatura(novo.compras, cartao, v));
            && antes <= depois
            && (antes == depois
                <==> NaoVoltaEm(FaturaDaCompra(b.cartoes[cartao].ciclo, data), Parceladas(parcelas), v))
  {
    var c := b.cartoes[cartao].ciclo;
    PurchaseIsDividedExactly(c, valor, data, parcelas);
    PurchaseOnPaidTotal(b, cartao, data, NewCompraCartaoSpec(c, valor, data, parcelas).valor, valor,
                        FaturaDaCompra(c, data), v);
  }

  lemma PurchaseOnPaidTotal(b: Banco, cartao: int, data: Data, ps: seq<Parcela>, valor: int, primeira: Data, v: Data)
    requires TemPagamento(b, cartao, v) && ps != [] && Divide(ps, valor, primeira)
    requires LancarCompra(b, cartao, data, ps).1.Ok?
    ensures var novo := LancarCompra(b, cartao, data, ps).0;
            var antes, depois := SomaCompras(ComprasDaFatura(b.compras, cartao, v)),
                                 SomaCompras(ComprasDaFatura(novo.compras, cartao, v));
            antes <= depois && (antes == depois <==> NaoVoltaEm(primeira, |ps|, v))
  {
    NewRows(cartao, b.proximo, data, ps, v);
    AddedTotal(b.compras, NovasCompras(cartao, b.proximo, data, ps), cartao, v);
    FilteredRows(b.pagamentos, (p: Pagamento) => p.cartao == cartao && p.vencimento == v);
    assert ps[0].vencimento != v;
    ReachesIff(ps, valor, primeira, v);
  }

  lemma ReachesIff(ps: seq<Parcela>, valor: int, primeira: Data, v: Data)
    requires ps != [] && Divide(ps, valor, primeira) && ps[0].vencimento != v
    ensures AtingeFatura(ps, v) <==> !NaoVoltaEm(primeira, |ps|, v)
  {
    if !NaoVoltaEm(primeira, |ps|, v) {
      var i :| 1 <= i < |ps| && AddMonthsClamped(primeira, i) == v;
      assert ps[i].vencimento == v;
    }
    if AtingeFatura(ps, v) {
      var i :| 0 <= i < |ps| && ps[i].vencimento == v;
      assert i >= 1 && AddMonthsClamped(primeira, i) == v;
    }
  }

  /** Two instalments are enough: on an active card, when the month after a purchase's first invoice
      already has payments and the first invoice has none, the purchase goes through, if only its
      description fits, and the total that was paid rises. */
  lemma PaidTotalCanRise(b: Banco, cartao: int, valor: int, data: Data, descricao: string)
    requires cartao in b.cartoes && b.cartoes[cartao].ativo && 2 <= valor <= MAX_MONEY && DescricaoOk(descricao)
    requires var primeira := FaturaDaCompra(b.cartoes[cartao].ciclo, data);
             TemPagamento(b, cartao, AddMonthsClamped(primeira, 1))
             && PagamentosEm(b.pagamentos, cartao, AddMonthsClamped(primeira, 0)) == []
    ensures var v := AddMonthsClamped(FaturaDaCompra(b.cartoes[cartao].ciclo, data), 1);
            var (novo, r) := RegistrarCompraSpec(b, cartao, valor, data, 2, descricao);
            && (r.Ok? <==> CabeNaColuna(descricao, 2))
            && (r.Ok? ==> SomaCompras(ComprasDaFatura(novo.compras, cartao, v))
                          > SomaCompras(ComprasDaFatura(b.compras, cartao, v)))
  {
    var c := b.cartoes[cartao].ciclo;
    var primeira := FaturaDaCompra(c, data);
    PurchaseIsDividedExactly(c, valor, data, 2);
    var ps := NewCompraCartaoSpec(c, valor, data, 2).valor;
    assert ps[0].vencimento == AddMonthsClamped(primeira, 0);
    PurchaseOnPaidTotal(b, cartao, data, ps, valor, primeira, AddMonthsClamped(primeira, 1));
  }

  // ----- the price of a purchase -----

  lemma {:induction false} PriceOfRows(cartao: int, grupo: int, data: Data, ps: seq<Parcela>, total: int,
                                        cs: seq<Compra>)
    requires |cs| == |ps| && forall i :: 0 <= i < |ps| ==> cs[i] == NovaCompra(cartao, grupo, data, total, ps[i])
    ensures SomaCompras(cs) == SomaParcelas(ps)
  {
    if ps != [] {
      var k := |ps| - 1;
      PriceOfRows(cartao, grupo, data, ps[..k], total, cs[..k]);
    }
  }

  /** Registering a purchase adds its price, to the cent, to what all the invoices hold. */
  lemma PurchaseAddsItsPrice(b: Banco, cartao: int, valor: int, data: Data, parcelas: int, descricao: string)
    requires RegistrarCompraSpec(b, cartao, valor, data, parcelas, descricao).1.Ok?
    ensures SomaCompras(RegistrarCompraSpec(b, cartao, valor, data, parcelas, descricao).0.compras)
         == SomaCompras(b.compras) + valor
  {
    var c := b.cartoes[cartao].ciclo;
    PurchaseIsDividedExactly(c, valor, data, parcelas);
    var ps := NewCompraCartaoSpec(c, valor, data, parcelas).valor;
    var novas := NovasCompras(cartao, b.proximo, data, ps);
    PriceOfRows(cartao, b.proximo, data, ps, |ps|, novas);
    TotalOfConcat(b.compras, novas);
  }

  // ----- registering and deleting again -----

  predicate SemPagamentos(b: Banco, cartao: int, v: Data) {
    PagamentosEm(b.pagamentos, cartao, v) == []
  }

  /** No instalment after the first is filed on an invoice that already has payments. */
  predicate SeguintesLivres(b: Banco, cartao: int, primeira: Data, n: int) {
    forall i :: 1 <= i < n ==> SemPagamentos(b, cartao, AddMonthsClamped(primeira, i))
  }

  lemma NoPaymentsIff(b: Banco, cartao: int, v: Data)
    ensures SemPagamentos(b, cartao, v) <==> !TemPagamento(b, cartao, v)
  {
    FilteredRows(b.pagamentos, (p: Pagamento) => p.cartao == cartao && p.vencimento == v);
    var ps := PagamentosEm(b.pagamentos, cartao, v);
    assert ps != [] ==> ps[0] in ps;
  }

  lemma GroupOfNewRows(b: Banco, cartao: int, data: Data, ps: seq<Parcela>)
    requires Invariante(b)
    ensures var c := GravarCompras(b, cartao, data, ps);
            && SemGrupo(c.compras, b.proximo) == b.compras
            && (GrupoTemPagamento(c, b.proximo)
                <==> exists i :: 0 <= i < |ps| && TemPagamento(b, cartao, ps[i].vencimento))
  {
    var c, novas := GravarCompras(b, cartao, data, ps), NovasCompras(cartao, b.proximo, data, ps);
    var f := (x: Compra) => x.grupo != b.proximo;
    FilterOfConcat(b.compras, novas, f);
    FilterKeepsAll(b.compras, f);
    FilterDropsAll(novas, f);
    PaidGroupIff(b, cartao, data, ps);
  }

  lemma PaidGroupIff(b: Banco, cartao: int, data: Data, ps: seq<Parcela>)
    requires Invariante(b)
    ensures GrupoTemPagamento(GravarCompras(b, cartao, data, ps), b.proximo)
            <==> exists i :: 0 <= i < |ps| && TemPagamento(b, cartao, ps[i].vencimento)
  {
    var c, novas := GravarCompras(b, cartao, data, ps), NovasCompras(cartao, b.proximo, data, ps);
    if GrupoTemPagamento(c, b.proximo) {
      var x, p :| x in c.compras && p in c.pagamentos && x.grupo == b.proximo
                  && p.cartao == x.cartao && p.vencimento == x.vencimento;
      assert x in novas;
      var i :| 0 <= i < |novas| && novas[i] == x;
      assert TemPagamento(b, cartao, ps[i].vencimento);
    }
    if i :| 0 <= i < |ps| && TemPagamento(b, cartao, ps[i].vencimento) {
      var p :| p in b.pagamentos && p.cartao == cartao && p.vencimento == ps[i].vencimento;
      assert novas[i] in c.compras && novas[i].grupo == b.proximo;
      assert p in c.pagamentos;
    }
  }

  /** A purchase just registered can be deleted, and the table is then as it was, exactly when none
      of its later instalments was filed on an invoice with payments; else the service that accepted
      it refuses to take it back. */
  lemma DeleteInvertsRegisterIff(b: Banco, cartao: int, valor: int, data: Data, parcelas: int, descricao: string)
    requires Invariante(b) && RegistrarCompraSpec(b, cartao, valor, data, parcelas, descricao).1.Ok?
    ensures var (c, r) := RegistrarCompraSpec(b, cartao, valor, data, parcelas, descricao);
            var (d, s) := ExcluirCompraSpec(c, r.valor);
            && (s.Ok?
                <==> SeguintesLivres(b, cartao, FaturaDaCompra(b.cartoes[cartao].ciclo, data), Parceladas(parcelas)))
            && (s.Ok? ==> s.valor == Parceladas(parcelas) && d == b.(proximo := c.proximo))
            && (s.Err? ==> s.erro == FechadaParaCompra)
  {
    var ciclo := b.cartoes[cartao].ciclo;
    PurchaseIsDividedExactly(ciclo, valor, data, parcelas);
    DeleteInvertsLaunch(b, cartao, data, NewCompraCartaoSpec(ciclo, valor, data, parcelas).valor, valor,
                        FaturaDaCompra(ciclo, data));
  }

  lemma DeleteInvertsLaunch(b: Banco, cartao: int, data: Data, ps: seq<Parcela>, valor: int, primeira: Data)
    requires Invariante(b) && ps != [] && Divide(ps, valor, primeira) && LancarCompra(b, cartao, data, ps).1.Ok?
    ensures var c := LancarCompra(b, cartao, data, ps).0;
            var (d, s) := ExcluirCompraSpec(c, b.proximo);
            && (s.Ok? <==> SeguintesLivres(b, cartao, primeira, |ps|))
            && (s.Ok? ==> s.valor == |ps| && d == b.(proximo := c.proximo))
            && (s.Err? ==> s.erro == FechadaParaCompra)
  {
    GroupOfNewRows(b, cartao, data, ps);
    FreeIff(b, cartao, ps, valor, primeira);
  }

  lemma FreeIff(b: Banco, cartao: int, ps: seq<Parcela>, valor: int, primeira: Data)
    requires ps != [] && Divide(ps, valor, primeira) && SemPagamentos(b, cartao, ps[0].vencimento)
    ensures SeguintesLivres(b, cartao, primeira, |ps|)
            <==> forall i :: 0 <= i < |ps| ==> !TemPagamento(b, cartao, ps[i].vencimento)
  {
    forall i | 0 <= i < |ps|
      ensures SemPagamentos(b, cartao, ps[i].vencimento) <==> !TemPagamento(b, cartao, ps[i].vencimento)
      ensures ps[i].vencimento == AddMonthsClamped(primeira, i)
    {
      NoPaymentsIff(b, cartao, ps[i].vencimento);
    }
  }
}
