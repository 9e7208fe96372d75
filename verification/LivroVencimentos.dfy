/** Which invoices can be paid: payments are filed under due dates, and instalments need not be. */
module LivroVencimentos {
  import opened Comum
  import opened Calendario
  import opened CicloCartao
  import opened Tabelas
  import opened Fatura
  import opened Livro
  import opened LivroInvariante
  import opened LivroCompras
  import opened ResumoFaturas

  /** The date under which invoices of its month are looked up. */
  predicate NoVencimento(b: Banco, cartao: int, v: Data) {
    cartao in b.cartoes && v == VencimentoDe(b.cartoes[cartao].ciclo, v.mes)
  }

  predicate TudoNoVencimento(b: Banco) {
    forall p :: p in b.pagamentos ==> NoVencimento(b, p.cartao, p.vencimento)
  }

  /** The step leaves the closing and due days of every card as they are. */
  predicate DiasFixos(b: Banco, op: Operacao) {
    op.AtualizarCartao? && op.cartao in b.cartoes ==> op.cadastro.ciclo == b.cartoes[op.cartao].ciclo
  }

  predicate RodadaDeDiasFixos(b: Banco, ops: seq<Operacao>)
    decreases |ops|
  {
    ops == [] || (DiasFixos(b, ops[0]) && RodadaDeDiasFixos(Executar(b, ops[0]), ops[1..]))
  }

  lemma {:induction false} NoUpdatesKeepDays(b: Banco, ops: seq<Operacao>)
    requires forall i :: 0 <= i < |ops| ==> !ops[i].AtualizarCartao?
    ensures RodadaDeDiasFixos(b, ops)
    decreases |ops|
  {
    if ops != [] {
      NoUpdatesKeepDays(Executar(b, ops[0]), ops[1..]);
    }
  }

  lemma PayFilesUnderDueDate(b: Banco, cartao: int, competencia: int, valor: int, data: Data, hoje: Data)
    requires Invariante(b) && TudoNoVencimento(b)
    ensures TudoNoVencimento(PagarFaturaSpec(b, cartao, competencia, valor, data, hoje).0)
  {
    if cartao in b.cartoes {
      DueOfMonth(b.cartoes[cartao].ciclo, competencia);
    }
  }

  lemma NewCardKeepsDueDates(b: Banco, f: CadastroCartao)
    requires Invariante(b) && TudoNoVencimento(b)
    ensures TudoNoVencimento(CriarCartaoSpec(b, f).0)
  {
    var c := CriarCartaoSpec(b, f).0;
    forall p | p in c.pagamentos
      ensures NoVencimento(c, p.cartao, p.vencimento)
    {
      assert NoVencimento(b, p.cartao, p.vencimento);
      assert p.cartao != b.proximo;
    }
  }

  lemma CardUpdateKeepsDueDates(b: Banco, cartao: int, f: CadastroCartao, ativo: Opcao<bool>)
    requires TudoNoVencimento(b) && DiasFixos(b, AtualizarCartao(cartao, f, ativo))
    ensures TudoNoVencimento(AtualizarCartaoSpec(b, cartao, f, ativo).0)
  {
    var c := AtualizarCartaoSpec(b, cartao, f, ativo).0;
    forall p | p in c.pagamentos
      ensures NoVencimento(c, p.cartao, p.vencimento)
    {
      assert NoVencimento(b, p.cartao, p.vencimento);
    }
  }

  lemma CardDeletionKeepsDueDates(b: Banco, cartao: int)
    requires Invariante(b) && TudoNoVencimento(b)
    ensures TudoNoVencimento(ExcluirCartaoSpec(b, cartao).0)
  {
    if ExcluirCartaoSpec(b, cartao).1.Ok? {
      var c := ExcluirCartaoSpec(b, cartao).0;
      FilteredRows(b.pagamentos, (p: Pagamento) => p.cartao != cartao);
      forall p | p in c.pagamentos
        ensures NoVencimento(c, p.cartao, p.vencimento)
      {
        assert NoVencimento(b, p.cartao, p.vencimento);
      }
    }
  }

  /** The steps that only take payments away, or leave them alone, with the cards as they are. */
  lemma FewerPaymentsKeepDueDates(b: Banco, c: Banco)
    requires TudoNoVencimento(b) && c.cartoes == b.cartoes && forall p :: p in c.pagamentos ==> p in b.pagamentos
    ensures TudoNoVencimento(c)
  {
    forall p | p in c.pagamentos
      ensures NoVencimento(c, p.cartao, p.vencimento)
    {
      assert NoVencimento(b, p.cartao, p.vencimento);
    }
  }

  lemma UndoOnlyRemoves(b: Banco, cartao: int, v: Data)
    ensures var c := RemoverUltimo(b, cartao, v).0;
            c.cartoes == b.cartoes && forall p :: p in c.pagamentos ==> p in b.pagamentos
  {
    var u := MaisRecente(PagamentosEm(b.pagamentos, cartao, v));
    if u.Algo? {
      FilteredRows(b.pagamentos, (p: Pagamento) => p.id != u.valor.id);
    }
  }

  lemma TransactionRemovalOnlyRemoves(b: Banco, id: int)
    ensures var c := ExcluirTransacaoSpec(b, id).0;
            c.cartoes == b.cartoes && forall p :: p in c.pagamentos ==> p in b.pagamentos
  {
    FilteredRows(b.pagamentos, (p: Pagamento) => p.transacao != id);
  }

  predicate MudaCartoesOuPagamentos(op: Operacao) {
    op.CriarCartao? || op.AtualizarCartao? || op.ExcluirCartao? || op.Pagar? || op.Desfazer? || op.ExcluirTransacao?
  }

  lemma OtherStepsKeepPayments(b: Banco, op: Operacao)
    requires !MudaCartoesOuPagamentos(op)
    ensures Executar(b, op).cartoes == b.cartoes && Executar(b, op).pagamentos == b.pagamentos
  {
  }

  lemma StepKeepsDueDates(b: Banco, op: Operacao)
    requires Invariante(b) && TudoNoVencimento(b) && DiasFixos(b, op)
    ensures TudoNoVencimento(Executar(b, op))
  {
    match op
    case CriarCartao(f) => NewCardKeepsDueDates(b, f);
    case AtualizarCartao(cartao, f, ativo) => CardUpdateKeepsDueDates(b, cartao, f, ativo);
    case ExcluirCartao(cartao) => CardDeletionKeepsDueDates(b, cartao);
    case Pagar(cartao, competencia, valor, data, hoje) =>
      PayFilesUnderDueDate(b, cartao, competencia, valor, data, hoje);
    case Desfazer(cartao, competencia) => UndoKeepsDueDates(b, cartao, competencia);
    case ExcluirTransacao(id) =>
      TransactionRemovalOnlyRemoves(b, id);
      FewerPaymentsKeepDueDates(b, ExcluirTransacaoSpec(b, id).0);
    case _ =>
      OtherStepsKeepPayments(b, op);
      FewerPaymentsKeepDueDates(b, Executar(b, op));
  }

  lemma UndoKeepsDueDates(b: Banco, cartao: int, competencia: int)
    requires TudoNoVencimento(b)
    ensures TudoNoVencimento(DesfazerPagamentoSpec(b, cartao, competencia).0)
  {
    if cartao in b.cartoes {
      var v := VencimentoDe(b.cartoes[cartao].ciclo, competencia);
      UndoOnlyRemoves(b, cartao, v);
      FewerPaymentsKeepDueDates(b, RemoverUltimo(b, cartao, v).0);
    }
  }

  /** Over every run that keeps the cards' days, each payment is filed under the due date of its
      invoice's month. */
  lemma {:induction false} RunKeepsDueDates(b: Banco, ops: seq<Operacao>)
    requires Invariante(b) && TudoNoVencimento(b) && RodadaSegura(b, ops) && RodadaDeDiasFixos(b, ops)
    ensures Invariante(Rodar(b, ops)) && TudoNoVencimento(Rodar(b, ops))
    decreases |ops|
  {
    if ops != [] {
      StepKeepsInvariant(b, ops[0]);
      StepKeepsDueDates(b, ops[0]);
      RunKeepsDueDates(Executar(b, ops[0]), ops[1..]);
    }
  }

  // ----- an instalment off the due date -----

  lemma OffDueDateHasNoPayments(b: Banco, cartao: int, v: Data)
    requires TudoNoVencimento(b) && !NoVencimento(b, cartao, v)
    ensures PagamentosEm(b.pagamentos, cartao, v) == []
  {
    FilteredRows(b.pagamentos, (p: Pagamento) => p.cartao == cartao && p.vencimento == v);
    EmptyIfNone(PagamentosEm(b.pagamentos, cartao, v));
  }

  /** In every ledger such a run reaches, an instalment filed off its month's due date has never been
      paid, and the card owes at least its value: it holds the limit for as long as its purchase
      stands. */
  lemma DriftedInstalmentIsNeverPaid(ops: seq<Operacao>, c: Compra)
    requires RodadaSegura(LIVRO_VAZIO, ops) && RodadaDeDiasFixos(LIVRO_VAZIO, ops)
    requires c in Rodar(LIVRO_VAZIO, ops).compras && !NoVencimento(Rodar(LIVRO_VAZIO, ops), c.cartao, c.vencimento)
    ensures var b := Rodar(LIVRO_VAZIO, ops);
            && PagamentosEm(b.pagamentos, c.cartao, c.vencimento) == []
            && TotalNaoPago(b, c.cartao) >= c.valor
  {
    RunKeepsDueDates(LIVRO_VAZIO, ops);
    DriftedHoldsTheLimit(Rodar(LIVRO_VAZIO, ops), c);
  }

  lemma DriftedHoldsTheLimit(b: Banco, c: Compra)
    requires Invariante(b) && TudoNoVencimento(b) && c in b.compras && !NoVencimento(b, c.cartao, c.vencimento)
    ensures PagamentosEm(b.pagamentos, c.cartao, c.vencimento) == []
    ensures TotalNaoPago(b, c.cartao) >= c.valor
  {
    var f := (x: Compra) => x.cartao == c.cartao && x.vencimento == c.vencimento;
    OffDueDateHasNoPayments(b, c.cartao, c.vencimento);
    FilteredRows(b.compras, f);
    OneOfTotal(ComprasDaFatura(b.compras, c.cartao, c.vencimento), c);
    assert NaFatura(c, c.cartao, c.vencimento);
    ListedDueDates(b.compras, c.cartao);
    OneOfGroups(b, c.cartao, Vencimentos(b.compras, c.cartao), c.vencimento);
  }
}
