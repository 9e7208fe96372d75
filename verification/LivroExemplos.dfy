/** Short runs from empty tables in which the ledger does not do what it seems to promise. */
module LivroExemplos {
  import opened Comum
  import opened Calendario
  import opened CicloCartao
  import opened Tabelas
  import opened Fatura
  import opened Livro
  import opened LivroInvariante
  import opened LivroCompras
  import opened LivroPagamentos
  import opened LivroVencimentos
  import opened ResumoFaturas

  /** Closes on the 1st, falls due on the 10th. */
  const CICLO := Cartao(1, 10)
  const CADASTRO := CadastroCartao("Visa", "", CICLO, 0)

  /** A card, a purchase of R$ 10 on its invoice of month m, and R$ 4 paid on the 15th. */
  function Comeco(m: int): seq<Operacao> {
    [CriarCartao(CADASTRO), RegistrarCompra(1, 1000, Data(m, 1), 1, ""),
     Pagar(1, m, 400, Data(m, 15), Data(m, 15))]
  }

  const COM_CARTAO := LIVRO_VAZIO.(cartoes := map[1 := CartaoSalvo(CICLO, 0, true)], proximo := 2)

  function ComCompra(m: int): Banco {
    COM_CARTAO.(compras := [Compra(3, 1, 2, 1000, Data(m, 1), 1, 1, Data(m, 10))], proximo := 4)
  }

  function Pago(m: int): Banco {
    ComCompra(m).(transacoes := [Transacao(4, true, 400, Data(m, 15), false)],
                  pagamentos := [Pagamento(5, 1, Data(m, 10), 4, 400, Data(m, 15))],
                  proximo := 6)
  }

  lemma DueOnTheTenth(m: int)
    ensures VencimentoDe(CICLO, m) == Data(m, 10) && FaturaDaCompra(CICLO, Data(m, 1)) == Data(m, 10)
    ensures AddMonthsClamped(Data(m, 10), 0) == Data(m, 10) && AddMonthsClamped(Data(m, 10), 1) == Data(m + 1, 10)
  {
    DueOfMonth(CICLO, m);
    InvoiceOfPurchase(CICLO, Data(m, 1));
    AddMonthsClampedClamps(Data(m, 10), 0);
    AddMonthsClampedClamps(Data(m, 10), 1);
  }

  lemma Named()
    ensures CadastroOk(CADASTRO) && DescricaoOk("") && forall n: nat :: CabeNaColuna("", n)
  {
    assert "Visa"[..3] == "Vis" && "Vis"[..2] == "Vi" && "Vi"[..1] == "V" && "V"[..0] == "";
  }

  lemma CardIsCreated()
    ensures CriarCartaoSpec(LIVRO_VAZIO, CADASTRO).0 == COM_CARTAO
  {
    Named();
  }

  lemma WholePurchase(valor: int, v: Data)
    requires valor >= 1 && AddMonthsClamped(v, 0) == v
    ensures ParcelasDaCompra(valor, 1, v) == [Parcela(valor, 1, v)]
  {
  }

  lemma PurchaseIsRegistered(m: int)
    ensures RegistrarCompraSpec(COM_CARTAO, 1, 1000, Data(m, 1), 1, "").0 == ComCompra(m)
  {
    Named();
    DueOnTheTenth(m);
    WholePurchase(1000, Data(m, 10));
    var ps := [Parcela(1000, 1, Data(m, 10))];
    assert NewCompraCartaoSpec(CICLO, 1000, Data(m, 1), 1) == Ok(ps);
    FirstPurchase(COM_CARTAO, ps, 1000, Data(m, 1));
    assert ComCompra(m).compras == [NovaCompra(1, 2, Data(m, 1), 1, ps[0])];
  }

  lemma FirstPurchase(b: Banco, ps: seq<Parcela>, valor: int, data: Data)
    requires 1 in b.cartoes && b.cartoes[1].ativo && b.pagamentos == [] && b.compras == []
    requires NewCompraCartaoSpec(b.cartoes[1].ciclo, valor, data, 1) == Ok(ps) && |ps| == 1
    ensures RegistrarCompraSpec(b, 1, valor, data, 1, "").0
         == b.(compras := [NovaCompra(1, b.proximo, data, 1, ps[0])], proximo := b.proximo + 2)
  {
    Named();
    assert NovasCompras(1, b.proximo, data, ps) == [NovaCompra(1, b.proximo, data, 1, ps[0])];
  }

  lemma OneRow(c: Compra)
    ensures ComprasDaFatura([c], c.cartao, c.vencimento) == [c] && SomaCompras([c]) == c.valor
  {
    var s := [c];
    FilterKeepsAll(s, (x: Compra) => x.cartao == c.cartao && x.vencimento == c.vencimento);
    assert s[..|s| - 1] == [];
  }

  lemma FirstBill(m: int, b: Banco, hoje: Data)
    requires b.compras == ComCompra(m).compras && b.cartoes == COM_CARTAO.cartoes && b.pagamentos == []
    ensures var f := FaturaSpec(b, 1, Data(m, 10), hoje); f.total == 1000 && f.pago == 0
  {
    OneRow(ComCompra(m).compras[0]);
  }

  lemma PaymentIsRecorded(m: int)
    ensures PagarFaturaSpec(ComCompra(m), 1, m, 400, Data(m, 15), Data(m, 15)).0 == Pago(m)
  {
    DueOnTheTenth(m);
    FirstBill(m, ComCompra(m), Data(m, 15));
    FirstPayment(ComCompra(m), Data(m, 10), Data(m, 15));
    PaidTables(m);
  }

  lemma PaidTables(m: int)
    ensures GravarPagamento(ComCompra(m), 1, Data(m, 10), 400, Data(m, 15)) == Pago(m)
  {}

  lemma FirstPayment(b: Banco, v: Data, dia: Data)
    requires 1 in b.cartoes && VencimentoDe(b.cartoes[1].ciclo, v.mes) == v
    requires FaturaSpec(b, 1, v, dia).total == 1000 && FaturaSpec(b, 1, v, dia).pago == 0
    ensures PagarFaturaSpec(b, 1, v.mes, 400, dia, dia).0 == GravarPagamento(b, 1, v, 400, dia)
  {
  }

  lemma TwoSteps(b: Banco, x: Operacao, y: Operacao)
    ensures Rodar(b, [x, y]) == Executar(Executar(b, x), y)
  {
    LastStep(b, [], x);
    LastStep(b, [x], y);
    assert [] + [x] == [x] && [x] + [y] == [x, y];
  }

  lemma CardAndPurchase(f: CadastroCartao, valor: int, data: Data, n: int, b1: Banco, b2: Banco)
    requires CriarCartaoSpec(LIVRO_VAZIO, f).0 == b1 && RegistrarCompraSpec(b1, 1, valor, data, n, "").0 == b2
    ensures Rodar(LIVRO_VAZIO, [CriarCartao(f), RegistrarCompra(1, valor, data, n, "")]) == b2
  {
    TwoSteps(LIVRO_VAZIO, CriarCartao(f), RegistrarCompra(1, valor, data, n, ""));
  }

  lemma AndPayment(b: Banco, x: Operacao, y: Operacao, competencia: int, valor: int, dia: Data, b2: Banco, b3: Banco)
    requires Rodar(b, [x, y]) == b2 && PagarFaturaSpec(b2, 1, competencia, valor, dia, dia).0 == b3
    ensures Rodar(b, [x, y, Pagar(1, competencia, valor, dia, dia)]) == b3
  {
    LastStep(b, [x, y], Pagar(1, competencia, valor, dia, dia));
    assert [x, y] + [Pagar(1, competencia, valor, dia, dia)] == [x, y, Pagar(1, competencia, valor, dia, dia)];
  }

  /** The three steps lead to Pago(m), a ledger that keeps the invariant. */
  lemma PaidLedgerIsReached(m: int)
    ensures Rodar(LIVRO_VAZIO, Comeco(m)) == Pago(m) && RodadaSegura(LIVRO_VAZIO, Comeco(m)) && Invariante(Pago(m))
  {
    CardIsCreated();
    PurchaseIsRegistered(m);
    PaymentIsRecorded(m);
    CardAndPurchase(CADASTRO, 1000, Data(m, 1), 1, COM_CARTAO, ComCompra(m));
    AndPayment(LIVRO_VAZIO, Comeco(m)[0], Comeco(m)[1], m, 400, Data(m, 15), ComCompra(m), Pago(m));
    NoEditsAreSafe(LIVRO_VAZIO, Comeco(m));
    ReachableLedgersAreSound(Comeco(m));
  }

  /** Editing the value of transaction 4 is accepted and leaves payment 5 without its saída. */
  lemma EditCanStrandAPayment(m: int)
    ensures EditarTransacaoSpec(Pago(m), 4, true, 1, Data(m, 15)).1.Ok?
    ensures !Invariante(EditarTransacaoSpec(Pago(m), 4, true, 1, Data(m, 15)).0)
  {
    PaidLedgerIsReached(m);
    EditOfBacking(Pago(m), Pago(m).pagamentos[0], Pago(m).transacoes[0], 1);
  }

  lemma EditOfBacking(b: Banco, p: Pagamento, t: Transacao, valor: int)
    requires Invariante(b) && p in b.pagamentos && p.transacao == t.id && b.transacoes == [t] && !t.parcela
    requires ValorOk(valor) && valor != p.valor
    ensures EditarTransacaoSpec(b, t.id, true, valor, p.pagoEm).1.Ok?
    ensures !Invariante(EditarTransacaoSpec(b, t.id, true, valor, p.pagoEm).0)
  {
    EditKeepsInvariantIff(b, t.id, true, valor, p.pagoEm);
  }

  // ----- a second payment -----

  lemma OnePayment(p: Pagamento)
    ensures PagamentosEm([p], p.cartao, p.vencimento) == [p] && Ordenar([p]) == [p] && SomaPagamentos([p]) == p.valor
    ensures MaisRecente([p]) == Algo(p) && UltimoDe([p]) == Ultimo(Algo(p.pagoEm), p.valor)
  {
    var s := [p];
    FilterKeepsAll(s, (x: Pagamento) => x.cartao == p.cartao && x.vencimento == p.vencimento);
    assert s[..|s| - 1] == [];
    assert Inserir([], p) == [] + [p] == s;
  }

  lemma PartlyPaidBill(m: int, hoje: Data)
    ensures var f := FaturaSpec(Pago(m), 1, Data(m, 10), hoje);
            f.total == 1000 && f.pago == 400 && f.ultimoEm == Algo(Data(m, 15)) && f.ultimoValor == 400
  {
    OneRow(Pago(m).compras[0]);
    OnePayment(Pago(m).pagamentos[0]);
  }

  lemma SecondPayment(m: int, dia: int, hoje: Data)
    ensures PagarFaturaSpec(Pago(m), 1, m, 100, Data(m, dia), hoje).0
         == GravarPagamento(Pago(m), 1, Data(m, 10), 100, Data(m, dia))
    ensures PagarNaFatura(Pago(m), 1, Data(m, 10), 100, Data(m, dia), hoje).1.Ok?
  {
    DueOnTheTenth(m);
    PartlyPaidBill(m, hoje);
  }

  /** R$ 1 paid on the 12th, after the R$ 4 of the 15th: undo takes the R$ 4 back, not the R$ 1. */
  lemma UndoCanTakeAnother(m: int, hoje: Data)
    ensures var c := PagarFaturaSpec(Pago(m), 1, m, 100, Data(m, 12), hoje).0;
            DesfazerPagamentoSpec(c, 1, m).0.pagamentos == [Pagamento(7, 1, Data(m, 10), 6, 100, Data(m, 12))]
  {
    DueOnTheTenth(m);
    SecondPayment(m, 12, hoje);
    UndoneFirst(Pago(m), Pago(m).pagamentos[0], Data(m, 10), 100, Data(m, 12));
    UndoOfMonth(GravarPagamento(Pago(m), 1, Data(m, 10), 100, Data(m, 12)), m, Data(m, 10));
  }

  lemma UndoOfMonth(b: Banco, competencia: int, v: Data)
    requires 1 in b.cartoes && VencimentoDe(b.cartoes[1].ciclo, competencia) == v
    ensures DesfazerPagamentoSpec(b, 1, competencia) == RemoverUltimo(b, 1, v)
  {}

  /** With a later one on record, undo leaves the payment just made. */
  lemma UndoneFirst(b: Banco, p: Pagamento, v: Data, valor: int, dia: Data)
    requires b.pagamentos == [p] && p.cartao == 1 && p.vencimento == v && p.id != b.proximo + 1 && Antes(dia, p.pagoEm)
    ensures RemoverUltimo(GravarPagamento(b, 1, v, valor, dia), 1, v).0.pagamentos
         == [Pagamento(b.proximo + 1, 1, v, b.proximo, valor, dia)]
  {
    var novo := Pagamento(b.proximo + 1, 1, v, b.proximo, valor, dia);
    PaymentsOfInvoiceGrow(b, 1, v, valor, dia);
    OlderIsLatest(p, novo);
    FirstTakenOut(p, novo);
  }

  lemma OlderIsLatest(p: Pagamento, q: Pagamento)
    requires p.cartao == q.cartao && p.vencimento == q.vencimento && Antes(q.pagoEm, p.pagoEm)
    ensures PagamentosEm([p], p.cartao, p.vencimento) == [p] && MaisRecente([p] + [q]) == Algo(p)
  {
    OnePayment(p);
    assert ([p] + [q])[..1] == [p];
  }

  lemma FirstTakenOut(p: Pagamento, q: Pagamento)
    requires p.id != q.id
    ensures SemPagamento([p] + [q], p.id) == [q]
  {
    var f := (x: Pagamento) => x.id != p.id;
    FilterDropsAll([p], f);
    FilterOfAppend([p], q, f);
  }

  /** R$ 1 paid on the 20th: the invoice returned still shows R$ 4 as the last payment, though the last
      one on record is the R$ 1. */
  lemma ReturnedInvoiceCanBeStale(m: int, hoje: Data)
    ensures var r := PagarNaFatura(Pago(m), 1, Data(m, 10), 100, Data(m, 20), hoje).1;
            r.Ok? && r.valor.ultimoEm == Algo(Data(m, 20)) && r.valor.ultimoValor == 400
    ensures var c := GravarPagamento(Pago(m), 1, Data(m, 10), 100, Data(m, 20));
            PagarNaFatura(Pago(m), 1, Data(m, 10), 100, Data(m, 20), hoje).0 == c
            && FaturaSpec(c, 1, Data(m, 10), hoje).ultimoValor == 100
  {
    PartlyPaidBill(m, hoje);
    PaidAfterPayment(Pago(m), 1, Data(m, 10), 100, Data(m, 20), hoje);
  }

  // ----- a purchase that reaches a paid invoice -----

  lemma NothingTheMonthBefore(m: int)
    ensures PagamentosEm(Pago(m).pagamentos, 1, Data(m - 1, 10)) == []
  {
    FilteredRows(Pago(m).pagamentos, (p: Pagamento) => p.cartao == 1 && p.vencimento == Data(m - 1, 10));
    EmptyIfNone(PagamentosEm(Pago(m).pagamentos, 1, Data(m - 1, 10)));
  }

  /** R$ 2 bought the month before in two instalments: the purchase goes through, the total of the
      invoice of month m, partly paid, rises, and the purchase cannot be deleted. */
  lemma PaidInvoiceCanGrow(m: int)
    ensures var (c, r) := RegistrarCompraSpec(Pago(m), 1, 200, Data(m - 1, 1), 2, "");
            && r.Ok?
            && SomaCompras(ComprasDaFatura(c.compras, 1, Data(m, 10)))
               > SomaCompras(ComprasDaFatura(Pago(m).compras, 1, Data(m, 10)))
            && ExcluirCompraSpec(c, r.valor).1 == Err(FechadaParaCompra)
  {
    PaidLedgerIsReached(m);
    DueOnTheTenth(m - 1);
    Named();
    NothingTheMonthBefore(m);
    assert Pago(m).pagamentos[0] in Pago(m).pagamentos;
    assert TemPagamento(Pago(m), 1, Data(m, 10));
    PaidTotalCanRise(Pago(m), 1, 200, Data(m - 1, 1), "");
    DeleteInvertsRegisterIff(Pago(m), 1, 200, Data(m - 1, 1), 2, "");
    NoPaymentsIff(Pago(m), 1, Data(m, 10));
  }

  // ----- an instalment that drifts -----

  /** Closes on the 20th, falls due on the 31st: bought in two instalments on the 10th of month m. */
  function Deriva(m: int): seq<Operacao> {
    [CriarCartao(CadastroCartao("Visa", "", Cartao(20, 31), 0)), RegistrarCompra(1, 200, Data(m, 10), 2, "")]
  }

  /** A February of 28 days. */
  predicate FevereiroCurto(m: int) {
    m % 12 == 1 && DiasNoMes(m) == 28
  }

  lemma DueInFebruary(m: int)
    requires FevereiroCurto(m)
    ensures FaturaDaCompra(Cartao(20, 31), Data(m, 10)) == Data(m, 28)
    ensures AddMonthsClamped(Data(m, 28), 1) == Data(m + 1, 28)
    ensures VencimentoDe(Cartao(20, 31), m + 1) == Data(m + 1, 31)
  {
    FebruaryInvoice(m);
    AddMonthsClampedClamps(Data(m, 28), 1);
    MarchDueDate(m);
  }

  lemma FebruaryInvoice(m: int)
    requires FevereiroCurto(m)
    ensures FaturaDaCompra(Cartao(20, 31), Data(m, 10)) == Data(m, 28)
  {
    InvoiceOfPurchase(Cartao(20, 31), Data(m, 10));
    assert MesDoFechamento(Cartao(20, 31), Data(m, 10)) == m;
  }

  lemma MarchDueDate(m: int)
    requires m % 12 == 1
    ensures VencimentoDe(Cartao(20, 31), m + 1) == Data(m + 1, 31) && DiasNoMes(m + 1) == 31
  {
    assert (m + 1) % 12 == 2;
    DueOfMonth(Cartao(20, 31), m + 1);
  }

  lemma SecondHalf(b: Banco, ps: seq<Parcela>, data: Data)
    requires |ps| == 2 && b.compras == []
    ensures NovaCompra(1, b.proximo, data, 2, ps[1]) in GravarCompras(b, 1, data, ps).compras
  {
    assert NovasCompras(1, b.proximo, data, ps)[1] in GravarCompras(b, 1, data, ps).compras;
  }

  /** The second instalment is filed under 28 March, a date no payment can reach, and the R$ 1 holds the
      card's limit from then on. */
  lemma DriftedInstalmentIsReached(m: int)
    requires FevereiroCurto(m)
    ensures var b := Rodar(LIVRO_VAZIO, Deriva(m));
            var c := Compra(4, 1, 2, 100, Data(m, 10), 2, 2, Data(m + 1, 28));
            && RodadaSegura(LIVRO_VAZIO, Deriva(m)) && RodadaDeDiasFixos(LIVRO_VAZIO, Deriva(m))
            && c in b.compras && !NoVencimento(b, 1, c.vencimento) && TotalNaoPago(b, 1) >= 100
  {
    var b, c := DriftRun(m);
    DueInFebruary(m);
    NoEditsAreSafe(LIVRO_VAZIO, Deriva(m));
    NoUpdatesKeepDays(LIVRO_VAZIO, Deriva(m));
    DriftedInstalmentIsNeverPaid(Deriva(m), c);
  }

  /** The ledger the two steps lead to. */
  lemma DriftRun(m: int) returns (b: Banco, c: Compra)
    requires FevereiroCurto(m)
    ensures b == Rodar(LIVRO_VAZIO, Deriva(m)) && c in b.compras
    ensures c == Compra(4, 1, 2, 100, Data(m, 10), 2, 2, Data(m + 1, 28))
    ensures 1 in b.cartoes && b.cartoes[1].ciclo == Cartao(20, 31)
  {
    var b1 := LIVRO_VAZIO.(cartoes := map[1 := CartaoSalvo(Cartao(20, 31), 0, true)], proximo := 2);
    DriftCard(b1);
    var ps := TwoHalves(m);
    DriftPurchase(m, b1, ps);
    CardAndPurchase(CadastroCartao("Visa", "", Cartao(20, 31), 0), 200, Data(m, 10), 2, b1,
                    GravarCompras(b1, 1, Data(m, 10), ps));
    b := GravarCompras(b1, 1, Data(m, 10), ps);
    c := NovaCompra(1, 2, Data(m, 10), 2, ps[1]);
    SecondHalf(b1, ps, Data(m, 10));
  }

  lemma TwoHalves(m: int) returns (ps: seq<Parcela>)
    requires FevereiroCurto(m)
    ensures |ps| == 2 && ps[1] == Parcela(100, 2, Data(m + 1, 28))
    ensures NewCompraCartaoSpec(Cartao(20, 31), 200, Data(m, 10), 2) == Ok(ps)
  {
    DueInFebruary(m);
    ps := ParcelasDaCompra(200, 2, Data(m, 28));
    HalfOf(Data(m, 28));
  }

  lemma HalfOf(v: Data)
    ensures var ps := ParcelasDaCompra(200, 2, v); |ps| == 2 && ps[1] == Parcela(100, 2, AddMonthsClamped(v, 1))
  {}

  lemma DriftPurchase(m: int, b1: Banco, ps: seq<Parcela>)
    requires 1 in b1.cartoes && b1.cartoes[1] == CartaoSalvo(Cartao(20, 31), 0, true) && b1.pagamentos == []
    requires ps != [] && NewCompraCartaoSpec(Cartao(20, 31), 200, Data(m, 10), 2) == Ok(ps)
    ensures RegistrarCompraSpec(b1, 1, 200, Data(m, 10), 2, "").0 == GravarCompras(b1, 1, Data(m, 10), ps)
  {
    Named();
  }

  lemma DriftCard(b1: Banco)
    requires b1 == LIVRO_VAZIO.(cartoes := map[1 := CartaoSalvo(Cartao(20, 31), 0, true)], proximo := 2)
    ensures CriarCartaoSpec(LIVRO_VAZIO, CadastroCartao("Visa", "", Cartao(20, 31), 0)).0 == b1
  {
    Named();
  }

  // ----- a debt the summary does not see -----

  /** One purchase of R$ 1 on the first of each of k months, from month m on. */
  function ComprasMensais(m: int, k: nat): seq<Operacao> {
    if k == 0 then [] else ComprasMensais(m, k - 1) + [RegistrarCompra(1, 100, Data(m + k - 1, 1), 1, "")]
  }

  function CompraDoMes(m: int, proximo: int): Compra {
    Compra(proximo + 1, 1, proximo, 100, Data(m, 1), 1, 1, Data(m, 10))
  }

  /** The ledger they lead to. */
  function LivroDeMeses(m: int, k: nat): Banco {
    if k == 0 then COM_CARTAO
    else
      var b := LivroDeMeses(m, k - 1);
      b.(compras := b.compras + [CompraDoMes(m + k - 1, b.proximo)], proximo := b.proximo + 2)
  }

  lemma {:induction false} OnlyPurchases(m: int, k: nat)
    ensures var b := LivroDeMeses(m, k); b.cartoes == COM_CARTAO.cartoes && b.pagamentos == []
  {
    if k > 0 {
      OnlyPurchases(m, k - 1);
    }
  }

  lemma MonthlyPurchase(b: Banco, m: int)
    requires b.cartoes == COM_CARTAO.cartoes && b.pagamentos == []
    ensures RegistrarCompraSpec(b, 1, 100, Data(m, 1), 1, "").0
         == b.(compras := b.compras + [CompraDoMes(m, b.proximo)], proximo := b.proximo + 2)
  {
    Named();
    DueOnTheTenth(m);
    WholePurchase(100, Data(m, 10));
    var ps := [Parcela(100, 1, Data(m, 10))];
    assert NewCompraCartaoSpec(CICLO, 100, Data(m, 1), 1) == Ok(ps);
    assert NovasCompras(1, b.proximo, Data(m, 1), ps) == [NovaCompra(1, b.proximo, Data(m, 1), 1, ps[0])];
  }

  lemma AndPurchase(ops: seq<Operacao>, b: Banco, m: int)
    requires Rodar(LIVRO_VAZIO, ops) == b && b.cartoes == COM_CARTAO.cartoes && b.pagamentos == []
    ensures Rodar(LIVRO_VAZIO, ops + [RegistrarCompra(1, 100, Data(m, 1), 1, "")])
         == b.(compras := b.compras + [CompraDoMes(m, b.proximo)], proximo := b.proximo + 2)
  {
    MonthlyPurchase(b, m);
    LastStep(LIVRO_VAZIO, ops, RegistrarCompra(1, 100, Data(m, 1), 1, ""));
  }

  lemma OnlyTheCard()
    ensures Rodar(LIVRO_VAZIO, [CriarCartao(CADASTRO)]) == COM_CARTAO
  {
    CardIsCreated();
    LastStep(LIVRO_VAZIO, [], CriarCartao(CADASTRO));
    assert [] + [CriarCartao(CADASTRO)] == [CriarCartao(CADASTRO)];
  }

  lemma {:induction false} MonthsAreReached(m: int, k: nat)
    ensures Rodar(LIVRO_VAZIO, [CriarCartao(CADASTRO)] + ComprasMensais(m, k)) == LivroDeMeses(m, k)
  {
    var x := [CriarCartao(CADASTRO)];
    if k == 0 {
      OnlyTheCard();
      assert x + [] == x;
    } else {
      MonthsAreReached(m, k - 1);
      OnlyPurchases(m, k - 1);
      AndPurchase(x + ComprasMensais(m, k - 1), LivroDeMeses(m, k - 1), m + k - 1);
      assert x + ComprasMensais(m, k)
          == (x + ComprasMensais(m, k - 1)) + [RegistrarCompra(1, 100, Data(m + k - 1, 1), 1, "")];
    }
  }

  /** The due dates of those months, latest first. */
  function Dias10(m: int, k: nat): seq<Data> {
    if k == 0 then [] else [Data(m + k - 1, 10)] + Dias10(m, k - 1)
  }

  lemma NewestDueDate(b: Banco, c: Compra, ds: seq<Data>)
    requires c.cartao == 1 && Vencimentos(b.compras, 1) == ds && (ds != [] ==> Antes(ds[0], c.vencimento))
    ensures Vencimentos(b.compras + [c], 1) == [c.vencimento] + ds
  {
    var t := b.compras + [c];
    assert t[..|t| - 1] == b.compras;
    EarlierStay(ds, c.vencimento);
  }

  lemma EarlierStay(ds: seq<Data>, v: Data)
    requires ds != [] ==> Antes(ds[0], v)
    ensures InserirData(ds, v) == [v] + ds
  {}

  lemma LatestTenth(m: int, k: nat)
    requires k > 0
    ensures Dias10(m, k) != [] && Dias10(m, k)[0] == Data(m + k - 1, 10)
  {}

  lemma NextMonthsLedger(m: int, k: nat)
    requires k > 0
    ensures var b := LivroDeMeses(m, k - 1);
            LivroDeMeses(m, k).compras == b.compras + [CompraDoMes(m + k - 1, b.proximo)]
  {}

  lemma {:induction false} TenthsOfMonths(m: int, k: nat)
    ensures Vencimentos(LivroDeMeses(m, k).compras, 1) == Dias10(m, k)
  {
    if k > 0 {
      TenthsOfMonths(m, k - 1);
      if k > 1 {
        LatestTenth(m, k - 1);
      }
      var b := LivroDeMeses(m, k - 1);
      NextMonthsLedger(m, k);
      NewestDueDate(b, CompraDoMes(m + k - 1, b.proximo), Dias10(m, k - 1));
    }
  }

  lemma NothingPaid(b: Banco, v: Data)
    requires b.pagamentos == []
    ensures LinhaDoResumo(b, 1, v).pago == 0
  {
  }

  lemma {:induction false} NoEditsInMonths(m: int, k: nat)
    ensures RodadaSegura(LIVRO_VAZIO, [CriarCartao(CADASTRO)] + ComprasMensais(m, k))
  {
    OnlyRegistrations(m, k);
    NoEditsAreSafe(LIVRO_VAZIO, [CriarCartao(CADASTRO)] + ComprasMensais(m, k));
  }

  lemma {:induction false} OnlyRegistrations(m: int, k: nat)
    ensures forall i :: 0 <= i < |ComprasMensais(m, k)| ==> ComprasMensais(m, k)[i].RegistrarCompra?
  {
    if k > 0 {
      OnlyRegistrations(m, k - 1);
    }
  }

  lemma LeftOutOwes(b: Banco, ds: seq<Data>) returns (v: Data)
    requires Invariante(b) && b.pagamentos == [] && Vencimentos(b.compras, 1) == ds && |ds| > LIMITE_RESUMO
    ensures v == ds[|ds| - 1] && Falta(b, 1, v) > 0
    ensures SomaGrupos(b, 1, ForaDaLista(b, 1)) > 0
  {
    v := ds[|ds| - 1];
    ListedDueDates(b.compras, 1);
    assert v in ds;
    LeftOutIsNotEmpty(b, 1, v);
    NothingPaid(b, v);
    assert v == ForaDaLista(b, 1)[|ds| - 1 - LIMITE_RESUMO];
    OneOfGroups(b, 1, ForaDaLista(b, 1), v);
    RemainderOfGroup(b, 1, v);
  }

  /** A card bought on in more than 120 months and never paid: the summary does not show its oldest debt,
      the invoice of month m. */
  lemma SummaryCanMissTheOldestDebt(m: int, k: nat)
    requires k > LIMITE_RESUMO
    ensures var b := Rodar(LIVRO_VAZIO, [CriarCartao(CADASTRO)] + ComprasMensais(m, k));
            && Invariante(b) && Falta(b, 1, Data(m, 10)) > 0
            && !MostraADivida(b, 1, APagarSpec(ResumoDasFaturas(b, 1)))
  {
    var b := MonthsOnRecord(m, k);
    OldestTenth(m, k);
    var v := LeftOutOwes(b, Dias10(m, k));
    ShowsDebtIff(b, 1);
  }

  lemma MonthsOnRecord(m: int, k: nat) returns (b: Banco)
    ensures b == Rodar(LIVRO_VAZIO, [CriarCartao(CADASTRO)] + ComprasMensais(m, k))
    ensures Invariante(b) && b.pagamentos == [] && Vencimentos(b.compras, 1) == Dias10(m, k)
  {
    b := LivroDeMeses(m, k);
    MonthsAreReached(m, k);
    NoEditsInMonths(m, k);
    ReachableLedgersAreSound([CriarCartao(CADASTRO)] + ComprasMensais(m, k));
    OnlyPurchases(m, k);
    TenthsOfMonths(m, k);
  }

  lemma {:induction false} OldestTenth(m: int, k: nat)
    requires k > 0
    ensures |Dias10(m, k)| == k && Dias10(m, k)[k - 1] == Data(m, 10)
  {
    if k > 1 {
      OldestTenth(m, k - 1);
    }
  }
}
