/** What the ledger's operations accept and write, said of the rows alone. */
module LivroRegras {
  import opened Comum
  import opened Texto
  import opened Centavos
  import opened Calendario
  import opened CicloCartao
  import opened Tabelas
  import opened Fatura
  import opened Livro
  import opened LivroInvariante
  import opened LivroPagamentos
  import opened ResumoFaturas

  // ----- the invoice as its rows give it -----

  function TotalDasCompras(b: Banco, cartao: int, v: Data): int {
    SomaCompras(ComprasDaFatura(b.compras, cartao, v))
  }

  function TotalPago(b: Banco, cartao: int, v: Data): int {
    SomaPagamentos(PagamentosEm(b.pagamentos, cartao, v))
  }

  lemma InvoiceSums(b: Banco, cartao: int, v: Data, hoje: Data) returns (f: Vista)
    requires cartao in b.cartoes
    ensures f == FaturaSpec(b, cartao, v, hoje)
    ensures f.total == TotalDasCompras(b, cartao, v) && f.pago == TotalPago(b, cartao, v)
    ensures f.fim == FimDoCiclo(b.cartoes[cartao].ciclo, v)
    ensures f.status == StatusDe(f.total, f.pago, f.fim, hoje)
  {
    f := FaturaSpec(b, cartao, v, hoje);
    SortedPayments(PagamentosEm(b.pagamentos, cartao, v));
  }

  /** The status against the rows: paid once the payments cover the purchases, partly paid while they do
      not, and with nothing paid open up to the closing and closed from the day after. */
  predicate StatusConfere(s: Status, total: int, pago: int, fim: Data, hoje: Data) {
    && (s == Paga <==> pago > 0 && total - pago <= 0)
    && (s == Parcial <==> pago > 0 && total - pago > 0)
    && (s == Aberta <==> pago <= 0 && AteOuIgual(hoje, fim))
    && (s == Fechada <==> pago <= 0 && Antes(fim, hoje))
  }

  lemma StatusOfInvoice(b: Banco, cartao: int, v: Data, hoje: Data)
    requires cartao in b.cartoes
    ensures StatusConfere(FaturaSpec(b, cartao, v, hoje).status, TotalDasCompras(b, cartao, v),
                          TotalPago(b, cartao, v), FimDoCiclo(b.cartoes[cartao].ciclo, v), hoje)
  {
    var f := InvoiceSums(b, cartao, v, hoje);
    StatusOfSums(f.total, f.pago, f.fim, hoje);
  }

  lemma StatusOfSums(total: int, pago: int, fim: Data, hoje: Data)
    ensures StatusConfere(StatusDe(total, pago, fim, hoje), total, pago, fim, hoje)
  {}

  /** An invoice with nothing paid reads open exactly while a purchase made today would still fall due on
      it or on an earlier one. */
  lemma OpenWhileItTakesPurchases(b: Banco, cartao: int, mes: int, hoje: Data)
    requires cartao in b.cartoes && CartaoValido(b.cartoes[cartao].ciclo) && Valida(hoje)
    requires TotalPago(b, cartao, VencimentoDe(b.cartoes[cartao].ciclo, mes)) == 0
    ensures var c := b.cartoes[cartao].ciclo;
            FaturaSpec(b, cartao, VencimentoDe(c, mes), hoje).status
            == if AteOuIgual(FaturaDaCompra(c, hoje), VencimentoDe(c, mes)) then Aberta else Fechada
  {
    var c := b.cartoes[cartao].ciclo;
    StatusOfInvoice(b, cartao, VencimentoDe(c, mes), hoje);
    StillTakesPurchases(c, mes, hoje);
  }

  lemma StillTakesPurchases(c: Cartao, mes: int, hoje: Data)
    requires CartaoValido(c) && Valida(hoje)
    ensures AteOuIgual(hoje, FimDoCiclo(c, VencimentoDe(c, mes)))
            <==> AteOuIgual(FaturaDaCompra(c, hoje), VencimentoDe(c, mes))
  {
    DueOfMonth(c, mes);
    CycleOfDue(c, VencimentoDe(c, mes));
    InvoiceOfPurchase(c, hoje);
    ByMonths(c, mes - MesesAteVencer(c), hoje);
  }

  lemma ByMonths(c: Cartao, mes: int, hoje: Data)
    requires CartaoValido(c) && Valida(hoje)
    ensures AteOuIgual(hoje, Fechamento(c, mes)) <==> MesDoFechamento(c, hoje) <= mes
  {
    if mes == hoje.mes - 1 {
      assert Antes(Fechamento(c, mes), hoje);
    }
  }

  // ----- paying -----

  /** What a payment that may leave its value out comes to. */
  function Pedido(valor: int, resta: int): int {
    if valor > 0 then valor else resta
  }

  /** A payment goes through exactly when the invoice has purchases, its payments do not cover them yet and
      the value, which is what remains when none is given, is at most the largest amount; it then adds one
      payment of that value and its saída, and nothing else. Refused, it changes nothing. */
  lemma PayingIsAcceptedIff(b: Banco, cartao: int, v: Data, valor: int, pagoEm: Data, hoje: Data)
    requires cartao in b.cartoes
    ensures var total, pago := TotalDasCompras(b, cartao, v), TotalPago(b, cartao, v);
            var (c, r) := PagarNaFatura(b, cartao, v, valor, pagoEm, hoje);
            && (r.Ok? <==> total > 0 && pago < total && Pedido(valor, total - pago) <= MAX_MONEY)
            && (r.Ok? ==> c == GravarPagamento(b, cartao, v, Pedido(valor, total - pago), pagoEm))
            && (r.Err? ==> c == b && r.erro == if pago > 0 && pago >= total then FaturaJaPaga
                                               else if total <= 0 then FaturaVazia else TransacaoInvalida)
  {
    var f := InvoiceSums(b, cartao, v, hoje);
  }

  /** The rows a payment adds, and the balance and invoice after it. */
  lemma PaymentIsRecorded(b: Banco, cartao: int, v: Data, valor: int, pagoEm: Data, ate: Data)
    ensures var c := GravarPagamento(b, cartao, v, valor, pagoEm);
            && c.cartoes == b.cartoes && c.compras == b.compras
            && TotalPago(c, cartao, v) == TotalPago(b, cartao, v) + valor
            && SaldoAte(c.transacoes, ate) == SaldoAte(b.transacoes, ate) - if Antes(pagoEm, ate) then valor else 0
  {
    PaymentsOfInvoiceGrow(b, cartao, v, valor, pagoEm);
    OneMorePaid(PagamentosEm(b.pagamentos, cartao, v), Pagamento(b.proximo + 1, cartao, v, b.proximo, valor, pagoEm));
    PaymentConserves(b, cartao, v, valor, pagoEm, ate);
  }

  lemma OneMorePaid(s: seq<Pagamento>, p: Pagamento)
    ensures SomaPagamentos(s + [p]) == SomaPagamentos(s) + p.valor
  {
    assert (s + [p])[..|s|] == s;
  }

  /** The order in which payments are undone: by date, and by order of recording on one date. */
  predicate AteEste(p: Pagamento, u: Pagamento) {
    Antes(p.pagoEm, u.pagoEm) || (p.pagoEm == u.pagoEm && p.id <= u.id)
  }

  lemma {:induction false} LatestComesLast(s: seq<Pagamento>, teto: int)
    requires PagamentosEmOrdem(s, teto) && s != []
    ensures MaisRecente(s).Algo? && MaisRecente(s).valor in s
    ensures forall p :: p in s ==> AteEste(p, MaisRecente(s).valor)
  {
    var r, u := s[..|s| - 1], s[|s| - 1];
    LatestIsThere(s);
    assert s == r + [u];
    if r != [] {
      LatestComesLast(r, u.transacao);
      IdsBelowP(r, u.transacao);
    }
  }

  /** Undo takes, of the invoice's payments, the one paid last, the last recorded on that date; with none
      there is nothing to undo. */
  lemma UndoTakesTheLatest(b: Banco, cartao: int, v: Data)
    requires Invariante(b)
    ensures var (c, r) := RemoverUltimo(b, cartao, v);
            && (r.Err? <==> !TemPagamento(b, cartao, v))
            && (r.Err? ==> c == b && r.erro == FaturaNaoPaga)
            && (r.Ok? ==> exists u: Pagamento ::
                            && u in PagamentosEm(b.pagamentos, cartao, v) && r.valor == u.valor
                            && (forall p :: p in PagamentosEm(b.pagamentos, cartao, v) ==> AteEste(p, u))
                            && c.pagamentos == SemPagamento(b.pagamentos, u.id)
                            && c.transacoes == SemTransacao(b.transacoes, u.transacao))
  {
    var ps := PagamentosEm(b.pagamentos, cartao, v);
    var f := (p: Pagamento) => p.cartao == cartao && p.vencimento == v;
    FilteredRows(b.pagamentos, f);
    FilteredInOrderP(b.pagamentos, f, b.proximo);
    if ps != [] {
      LatestComesLast(ps, b.proximo);
      assert TemPagamento(b, cartao, v) by {
        assert ps[0] in ps;
      }
    }
  }

  // ----- purchases -----

  predicate DescricaoCabe(descricao: string, n: int) {
    && |Normalizado(descricao)| <= 255
    && (n > 1 && Normalizado(descricao) != "" ==> |Normalizado(descricao)| + (if n < 10 then 6 else 8) <= 255)
  }

  predicate CompraAceitavel(b: Banco, cartao: int, valor: int, data: Data, n: int, descricao: string) {
    && cartao in b.cartoes && b.cartoes[cartao].ativo
    && 1 <= n <= 36 && n <= valor <= MAX_MONEY
    && DescricaoCabe(descricao, n)
    && !TemPagamento(b, cartao, FaturaDaCompra(b.cartoes[cartao].ciclo, data))
  }

  /** A purchase is registered exactly when the card exists and is active, it has 1 to 36 instalments of a
      cent or more within the largest amount, its description leaves room for the instalment's number, and
      the invoice it falls on has no payment yet. Refused, it changes nothing. */
  lemma PurchaseIsAcceptedIff(b: Banco, cartao: int, valor: int, data: Data, parcelas: int, descricao: string)
    requires Valida(data) && CartoesSaos(b)
    ensures var (c, r) := RegistrarCompraSpec(b, cartao, valor, data, parcelas, descricao);
            && (r.Ok? <==> CompraAceitavel(b, cartao, valor, data, if parcelas == 0 then 1 else parcelas, descricao))
            && (r.Err? ==> c == b)
  {
    var n := if parcelas == 0 then 1 else parcelas;
    if cartao in b.cartoes && b.cartoes[cartao].ativo && 1 <= n <= 36 && n <= valor <= MAX_MONEY {
      LaunchedIff(b, cartao, valor, data, n, descricao);
    }
  }

  lemma LaunchedIff(b: Banco, cartao: int, valor: int, data: Data, n: nat, descricao: string)
    requires Valida(data) && CartoesSaos(b) && cartao in b.cartoes && 1 <= n <= 36
    ensures var ps := ParcelasDaCompra(valor, n, FaturaDaCompra(b.cartoes[cartao].ciclo, data));
            DescricaoOk(descricao) && LancarCompra(b, cartao, data, ps).1.Ok? && CabeNaColuna(descricao, n)
            <==> DescricaoCabe(descricao, n) && !TemPagamento(b, cartao, FaturaDaCompra(b.cartoes[cartao].ciclo, data))
  {
    FirstInvoice(b, cartao, data, valor, n);
    RoomForDescription(descricao, n);
  }

  lemma RoomForDescription(descricao: string, n: nat)
    requires 1 <= n <= 36
    ensures DescricaoCabe(descricao, n) <==> DescricaoOk(descricao) && CabeNaColuna(descricao, n)
  {
    if DescricaoOk(descricao) {
      DescriptionFitsIff(descricao, n);
    }
  }

  /** A refused purchase is refused for the first of these reasons. */
  lemma RefusedPurchase(b: Banco, cartao: int, valor: int, data: Data, parcelas: int, descricao: string)
    requires Valida(data) && CartoesSaos(b)
    requires RegistrarCompraSpec(b, cartao, valor, data, parcelas, descricao).1.Err?
    ensures var n := if parcelas == 0 then 1 else parcelas;
            RegistrarCompraSpec(b, cartao, valor, data, parcelas, descricao)
            == (b, Err(if cartao !in b.cartoes then NaoEncontrado
                       else if !b.cartoes[cartao].ativo then CartaoArquivado
                       else if !(1 <= n <= 36) then CompraInvalida(ParcelasInvalidas)
                       else if valor <= 0 then CompraInvalida(ValorNaoPositivo)
                       else if valor > MAX_MONEY then CompraInvalida(ValorAcima)
                       else if valor < n then CompraInvalida(ParcelaAbaixo)
                       else if |Normalizado(descricao)| > 255 then CompraInvalida(DescricaoLonga)
                       else if TemPagamento(b, cartao, FaturaDaCompra(b.cartoes[cartao].ciclo, data))
                       then FechadaParaCompra
                       else FalhaAoGravar))
  {
    var n := if parcelas == 0 then 1 else parcelas;
    if cartao in b.cartoes && b.cartoes[cartao].ativo && 1 <= n <= 36 && n <= valor <= MAX_MONEY {
      FirstInvoice(b, cartao, data, valor, n);
    }
  }

  lemma FirstInvoice(b: Banco, cartao: int, data: Data, valor: int, n: nat)
    requires Valida(data) && CartoesSaos(b) && cartao in b.cartoes && 1 <= n
    ensures var c := b.cartoes[cartao].ciclo;
            var ps := ParcelasDaCompra(valor, n, FaturaDaCompra(c, data));
            ps[0].vencimento == FaturaDaCompra(c, data)
            && (PagamentosEm(b.pagamentos, cartao, ps[0].vencimento) == []
                <==> !TemPagamento(b, cartao, FaturaDaCompra(c, data)))
  {
    FirstDue(b.cartoes[cartao].ciclo, data, valor, n);
    HasPaymentIff(b, cartao, FaturaDaCompra(b.cartoes[cartao].ciclo, data));
  }

  lemma FirstDue(c: Cartao, data: Data, valor: int, n: nat)
    requires CartaoValido(c) && Valida(data) && 1 <= n
    ensures ParcelasDaCompra(valor, n, FaturaDaCompra(c, data))[0].vencimento == FaturaDaCompra(c, data)
  {
    var v := FaturaDaCompra(c, data);
    InvoiceIsADueDate(c, data);
    MonthsFromADueDate(c, v.mes, 0);
    FirstParcel(valor, n, v);
  }

  lemma FirstParcel(valor: int, n: nat, v: Data)
    requires 1 <= n && AddMonthsClamped(v, 0) == v
    ensures ParcelasDaCompra(valor, n, v)[0].vencimento == v
  {}

  lemma HasPaymentIff(b: Banco, cartao: int, v: Data)
    ensures PagamentosEm(b.pagamentos, cartao, v) == [] <==> !TemPagamento(b, cartao, v)
  {
    var ps := PagamentosEm(b.pagamentos, cartao, v);
    FilteredRows(b.pagamentos, (p: Pagamento) => p.cartao == cartao && p.vencimento == v);
    assert ps != [] ==> ps[0] in ps;
  }

  /** Row i of a purchase of `valor` in n instalments, first due on `primeira`. */
  predicate LinhaDaCompra(x: Compra, i: int, cartao: int, grupo: int, valor: int, n: int, data: Data, primeira: Data)
    requires n >= 1
  {
    && x.cartao == cartao && x.grupo == grupo && x.data == data && x.total == n && x.numero == i + 1
    && x.valor == valor / n + (if i == 0 then valor % n else 0)
    && x.vencimento == AddMonthsClamped(primeira, i)
  }

  predicate LinhasDaCompra(xs: seq<Compra>, cartao: int, grupo: int, valor: int, n: int, data: Data, primeira: Data)
    requires n >= 1
  {
    forall i :: 0 <= i < |xs| ==> LinhaDaCompra(xs[i], i, cartao, grupo, valor, n, data, primeira)
  }

  /** A registered purchase adds one row an instalment: equal parts with the remainder in the first, month
      by month from the invoice of its date, all of one new group. Nothing else changes. */
  lemma RegisteredRows(b: Banco, cartao: int, valor: int, data: Data, parcelas: int, descricao: string)
    requires RegistrarCompraSpec(b, cartao, valor, data, parcelas, descricao).1.Ok?
    ensures var (c, r) := RegistrarCompraSpec(b, cartao, valor, data, parcelas, descricao);
            var n := if parcelas == 0 then 1 else parcelas;
            var primeira := FaturaDaCompra(b.cartoes[cartao].ciclo, data);
            && n >= 1 && |c.compras| == |b.compras| + n && c.compras[..|b.compras|] == b.compras
            && LinhasDaCompra(c.compras[|b.compras|..], cartao, r.valor, valor, n, data, primeira)
            && c == b.(compras := c.compras, proximo := c.proximo) && r.valor == b.proximo < c.proximo
  {
    var n := if parcelas == 0 then 1 else parcelas;
    var primeira := FaturaDaCompra(b.cartoes[cartao].ciclo, data);
    RowsOfPurchase(cartao, b.proximo, data, valor, n, primeira);
  }

  lemma RowsOfPurchase(cartao: int, grupo: int, data: Data, valor: int, n: nat, primeira: Data)
    requires 1 <= n <= valor
    ensures var novas := NovasCompras(cartao, grupo, data, ParcelasDaCompra(valor, n, primeira));
            |novas| == n && LinhasDaCompra(novas, cartao, grupo, valor, n, data, primeira)
  {
    RestOfDivision(valor, n);
  }

  /** While a card is archived it takes no purchase; made active again, or left active by an update that does
      not say, it takes them as before. Nothing but the card changes. */
  lemma ArchivedCardTakesNoPurchase(b: Banco, cartao: int, f: CadastroCartao, ativo: Opcao<bool>,
                                    valor: int, data: Data, parcelas: int, descricao: string)
    requires cartao in b.cartoes && CadastroOk(f) && Valida(data) && CartoesSaos(b)
    ensures var c := AtualizarCartaoSpec(b, cartao, f, ativo).0;
            var r := RegistrarCompraSpec(c, cartao, valor, data, parcelas, descricao);
            var segue := if ativo.Algo? then ativo.valor else b.cartoes[cartao].ativo;
            && c == b.(cartoes := c.cartoes) && c.cartoes.Keys == b.cartoes.Keys
            && (forall k :: k in b.cartoes && k != cartao ==> c.cartoes[k] == b.cartoes[k])
            && c.cartoes[cartao].ciclo == f.ciclo && c.cartoes[cartao].limite == f.limite
            && (!segue ==> r == (c, Err(CartaoArquivado)))
            && (segue && CompraAceitavel(c, cartao, valor, data, if parcelas == 0 then 1 else parcelas, descricao)
                ==> r.1.Ok?)
            && (segue ==> c.cartoes[cartao].ativo)
  {
    var c := AtualizarCartaoSpec(b, cartao, f, ativo).0;
    PurchaseIsAcceptedIff(c, cartao, valor, data, parcelas, descricao);
  }

  predicate TemGrupo(cs: seq<Compra>, grupo: int) {
    exists x :: x in cs && x.grupo == grupo
  }

  /** Deleting a purchase takes all its rows and no other, in any number, exactly when it has rows and none
      of them is on an invoice with payments. */
  lemma DeletionTakesTheGroup(b: Banco, grupo: int)
    ensures var (c, r) := ExcluirCompraSpec(b, grupo);
            && (r.Ok? <==> TemGrupo(b.compras, grupo)
                           && forall x :: x in b.compras && x.grupo == grupo ==>
                                            !TemPagamento(b, x.cartao, x.vencimento))
            && (r.Ok? ==> c == b.(compras := c.compras) && r.valor == |b.compras| - |c.compras| > 0
                          && forall x :: x in c.compras <==> x in b.compras && x.grupo != grupo)
            && (r.Err? ==> c == b && r.erro == if TemGrupo(b.compras, grupo) then FechadaParaCompra
                                               else NaoEncontrado)
  {
    PaidGroup(b, grupo);
    RowsLeft(b.compras, grupo);
  }

  lemma PaidGroup(b: Banco, grupo: int)
    ensures GrupoTemPagamento(b, grupo)
            <==> exists x :: x in b.compras && x.grupo == grupo && TemPagamento(b, x.cartao, x.vencimento)
  {
    if x :| x in b.compras && x.grupo == grupo && TemPagamento(b, x.cartao, x.vencimento) {
      var p :| p in b.pagamentos && p.cartao == x.cartao && p.vencimento == x.vencimento;
      assert GrupoTemPagamento(b, grupo);
    }
  }

  lemma RowsLeft(s: seq<Compra>, grupo: int)
    ensures |SemGrupo(s, grupo)| <= |s|
    ensures forall x :: x in SemGrupo(s, grupo) <==> x in s && x.grupo != grupo
    ensures |SemGrupo(s, grupo)| < |s| <==> TemGrupo(s, grupo)
  {
    var f := (x: Compra) => x.grupo != grupo;
    FilteredRows(s, f);
    FilterShrinks(s, f);
    if !TemGrupo(s, grupo) {
      FilterKeepsAll(s, f);
    }
  }

  /** What is filled in for a purchase is accepted exactly when it names its user and a date besides. */
  lemma PurchaseFormIff(c: Cartao, x: CompraInput)
    ensures var n := if x.totalParcelas == 0 then 1 else x.totalParcelas;
            NovaCompraSpec(c, x).Ok?
            <==> !EmBranco(x.usuario) && x.data.Algo? && |Normalizado(x.descricao)| <= 255
                 && 1 <= n <= 36 && n <= x.valor <= MAX_MONEY
  {}

  // ----- cards -----

  predicate CartaoAceitavel(f: CadastroCartao) {
    && 1 <= |Normalizado(f.nome)| <= 60 && |Normalizado(f.banco)| <= 60
    && 1 <= f.ciclo.diaFechamento <= 31 && 1 <= f.ciclo.diaVencimento <= 31 && 0 <= f.limite <= MAX_MONEY
  }

  /** A card is created exactly when its name, bank, days and limit are within bounds; it is then a new, active
      one, without purchases, as filled in, and nothing else changes. */
  lemma CardIsCreatedIff(b: Banco, f: CadastroCartao)
    requires Invariante(b)
    ensures var (c, r) := CriarCartaoSpec(b, f);
            && (r.Ok? <==> CartaoAceitavel(f)) && (r.Err? ==> c == b)
            && (r.Ok? ==> && r.valor !in b.cartoes && !TemCompras(c, r.valor)
                          && c.cartoes == b.cartoes[r.valor := CartaoSalvo(f.ciclo, f.limite, true)]
                          && c == b.(cartoes := c.cartoes, proximo := c.proximo))
  {}

  /** A card is deleted exactly when it exists and has no purchases, and only its own row goes. */
  lemma CardIsDeletedIff(b: Banco, cartao: int)
    requires Invariante(b)
    ensures var (c, r) := ExcluirCartaoSpec(b, cartao);
            && (r.Ok? <==> cartao in b.cartoes && forall x :: x in b.compras ==> x.cartao != cartao)
            && c == b.(cartoes := if r.Ok? then b.cartoes - {cartao} else b.cartoes)
  {
    CardDeletionTakesNothingElse(b, cartao);
  }

  // ----- transactions -----

  function Efeito(saida: bool, valor: int, data: Data, ate: Data): int {
    if !Antes(data, ate) then 0 else if saida then -valor else valor
  }

  /** A transaction created moves the balance of every later date by its value and no other. */
  lemma CreatedTransactionCounts(b: Banco, saida: bool, valor: int, data: Data, ate: Data)
    ensures var (c, r) := CriarTransacaoSpec(b, saida, valor, data);
            && (r.Ok? <==> 1 <= valor <= MAX_MONEY) && (r.Err? ==> c == b)
            && (r.Ok? ==> c == b.(transacoes := b.transacoes + [Transacao(r.valor, saida, valor, data, false)],
                                  proximo := c.proximo))
            && (r.Ok? ==> SaldoAte(c.transacoes, ate) == SaldoAte(b.transacoes, ate) + Efeito(saida, valor, data, ate))
  {
    var t := Transacao(b.proximo, saida, valor, data, false);
    assert (b.transacoes + [t])[..|b.transacoes|] == b.transacoes;
  }

  /** A transaction edited stops counting as it was and counts as it became; nothing but that row changes. */
  lemma EditedTransactionCounts(b: Banco, t: Transacao, saida: bool, valor: int, data: Data, ate: Data)
    requires Invariante(b) && t in b.transacoes
    ensures var (c, r) := EditarTransacaoSpec(b, t.id, saida, valor, data);
            && (r.Ok? <==> (t.parcela ==> saida) && 1 <= valor <= MAX_MONEY)
            && c == b.(transacoes := if r.Ok? then ComEdicao(b.transacoes, t.id, saida, valor, data) else b.transacoes)
            && (r.Ok? ==> SaldoAte(c.transacoes, ate)
                          == SaldoAte(b.transacoes, ate) - Efeito(t.saida, t.valor, t.data, ate)
                             + Efeito(saida, valor, data, ate))
  {
    FoundById(b.transacoes, b.proximo, t);
    BalanceEdited(b.transacoes, b.proximo, t, saida, valor, data, ate);
  }

  /** A transaction deleted stops counting, and takes with it the payment it backs and nothing else. */
  lemma DeletedTransactionCounts(b: Banco, t: Transacao, ate: Data)
    requires Invariante(b) && t in b.transacoes
    ensures var (c, r) := ExcluirTransacaoSpec(b, t.id);
            && (r.Ok? <==> !t.parcela) && (r.Err? ==> c == b)
            && (r.Ok? ==> SaldoAte(c.transacoes, ate)
                          == SaldoAte(b.transacoes, ate) - Efeito(t.saida, t.valor, t.data, ate))
            && (r.Ok? ==> c == b.(transacoes := c.transacoes, pagamentos := c.pagamentos)
                          && (forall x :: x in c.transacoes <==> x in b.transacoes && x != t)
                          && forall p :: p in c.pagamentos <==> p in b.pagamentos && p.transacao != t.id)
  {
    FoundById(b.transacoes, b.proximo, t);
    BalanceWithout(b.transacoes, b.proximo, t, ate);
    FilteredRows(b.transacoes, (x: Transacao) => x.id != t.id);
    FilteredRows(b.pagamentos, (p: Pagamento) => p.transacao != t.id);
    forall x | x in b.transacoes && x.id == t.id
      ensures x == t
    {
      IdsAreUnique(b.transacoes, b.proximo, x, t);
    }
  }

  lemma {:induction false} FoundById(s: seq<Transacao>, teto: int, t: Transacao)
    requires TransacoesEmOrdem(s, teto) && t in s
    ensures BuscaTransacao(s, t.id) == Algo(t)
  {
    var r, u := s[..|s| - 1], s[|s| - 1];
    assert s == r + [u];
    if t != u {
      IdsBelow(r, u.id);
      FoundById(r, u.id, t);
    }
  }

  lemma {:induction false} UntouchedBelow(s: seq<Transacao>, teto: int, id: int, saida: bool, valor: int, data: Data)
    requires TransacoesEmOrdem(s, teto) && teto <= id
    ensures ComEdicao(s, id, saida, valor, data) == s
  {
    IdsBelow(s, teto);
  }

  lemma {:induction false} BalanceEdited(s: seq<Transacao>, teto: int, t: Transacao, saida: bool, valor: int,
                                         data: Data, ate: Data)
    requires TransacoesEmOrdem(s, teto) && t in s
    ensures SaldoAte(ComEdicao(s, t.id, saida, valor, data), ate)
         == SaldoAte(s, ate) - Efeito(t.saida, t.valor, t.data, ate) + Efeito(saida, valor, data, ate)
  {
    var r, u := s[..|s| - 1], s[|s| - 1];
    var e := ComEdicao(s, t.id, saida, valor, data);
    assert s == r + [u];
    assert e[..|s| - 1] == ComEdicao(r, t.id, saida, valor, data);
    IdsBelow(r, u.id);
    if t == u {
      UntouchedBelow(r, u.id, t.id, saida, valor, data);
    } else {
      BalanceEdited(r, u.id, t, saida, valor, data, ate);
    }
  }
}
