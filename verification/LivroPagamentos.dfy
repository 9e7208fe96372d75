/** Paying invoices, undoing payments and the account balance. */
module LivroPagamentos {
  import opened Comum
  import opened Calendario
  import opened CicloCartao
  import opened Tabelas
  import opened Fatura
  import opened Livro
  import opened LivroInvariante

  /** What the recorded payments had taken out of the account before `ate`. */
  function PagoAte(s: seq<Pagamento>, ate: Data): int {
    if s == [] then 0
    else PagoAte(s[..|s| - 1], ate) + if Antes(s[|s| - 1].pagoEm, ate) then s[|s| - 1].valor else 0
  }

  // ----- sums over tables with a row less -----

  lemma {:induction false} BalanceWithout(s: seq<Transacao>, teto: int, t: Transacao, ate: Data)
    requires TransacoesEmOrdem(s, teto) && t in s
    ensures SaldoAte(SemTransacao(s, t.id), ate) == SaldoAte(s, ate) - if Antes(t.data, ate) then Assinado(t) else 0
  {
    var r, u := s[..|s| - 1], s[|s| - 1];
    var f := (x: Transacao) => x.id != t.id;
    assert s == r + [u];
    assert SemTransacao(r, t.id) == Filtrar(r, f);
    IdsBelow(r, u.id);
    if t == u {
      FilterKeepsAll(r, f);
      assert SemTransacao(s, t.id) == r + [] == r;
    } else {
      BalanceWithout(r, u.id, t, ate);
      assert (Filtrar(r, f) + [u])[..|Filtrar(r, f)|] == Filtrar(r, f);
    }
  }

  lemma RemovedFromEnd(r: seq<Pagamento>, u: Pagamento, p: Pagamento)
    requires PagamentosEmOrdem(r, u.transacao) && u.transacao < u.id && (p in r || p == u)
    ensures SemPagamento(r + [u], p.id) == if p == u then r else SemPagamento(r, p.id) + [u]
  {
    var f := (x: Pagamento) => x.id != p.id;
    IdsBelowP(r, u.transacao);
    FilterOfAppend(r, u, f);
    if p == u {
      FilterKeepsAll(r, f);
    }
  }

  lemma PaidOfAppend(s: seq<Pagamento>, p: Pagamento, ate: Data)
    ensures PagoAte(s + [p], ate) == PagoAte(s, ate) + if Antes(p.pagoEm, ate) then p.valor else 0
  {
    assert (s + [p])[..|s|] == s;
  }

  lemma {:induction false} PaidWithout(s: seq<Pagamento>, teto: int, p: Pagamento, ate: Data)
    requires PagamentosEmOrdem(s, teto) && p in s
    ensures PagoAte(SemPagamento(s, p.id), ate) == PagoAte(s, ate) - if Antes(p.pagoEm, ate) then p.valor else 0
    ensures |SemPagamento(s, p.id)| == |s| - 1
  {
    var r, u := s[..|s| - 1], s[|s| - 1];
    assert s == r + [u];
    RemovedFromEnd(r, u, p);
    PaidOfAppend(r, u, ate);
    if p != u {
      PaidWithout(r, u.transacao, p, ate);
      PaidOfAppend(SemPagamento(r, p.id), u, ate);
    }
  }

  // ----- conservation -----

  /** Balance plus recorded payments: what the account would hold had no invoice been paid. */
  function SemCartoes(b: Banco, ate: Data): int {
    SaldoAte(b.transacoes, ate) + PagoAte(b.pagamentos, ate)
  }

  predicate DoCartao(op: Operacao) {
    !op.CriarTransacao? && !op.EditarTransacao? && !op.ExcluirTransacao?
  }

  lemma PaymentConserves(b: Banco, cartao: int, v: Data, valor: int, pagoEm: Data, ate: Data)
    ensures SemCartoes(GravarPagamento(b, cartao, v, valor, pagoEm), ate) == SemCartoes(b, ate)
    ensures SaldoAte(GravarPagamento(b, cartao, v, valor, pagoEm).transacoes, ate)
         == SaldoAte(b.transacoes, ate) - if Antes(pagoEm, ate) then valor else 0
  {
    var novo := GravarPagamento(b, cartao, v, valor, pagoEm);
    assert novo.transacoes[..|novo.transacoes| - 1] == b.transacoes;
    assert novo.pagamentos[..|novo.pagamentos| - 1] == b.pagamentos;
  }

  lemma UndoConserves(b: Banco, cartao: int, v: Data, ate: Data)
    requires Invariante(b)
    ensures SemCartoes(RemoverUltimo(b, cartao, v).0, ate) == SemCartoes(b, ate)
  {
    if RemoverUltimo(b, cartao, v).1.Ok? {
      var u := MaisRecente(PagamentosEm(b.pagamentos, cartao, v)).valor;
      LatestOfInvoice(b, cartao, v);
      assert Lastreado(b.transacoes, u);
      BalanceWithout(b.transacoes, b.proximo, Transacao(u.transacao, true, u.valor, u.pagoEm, false), ate);
      PaidWithout(b.pagamentos, b.proximo, u, ate);
    }
  }

  /** No card step creates or loses money: at every date the balance and the payments recorded up to
      it keep their sum. */
  lemma CardStepsConserve(b: Banco, op: Operacao, ate: Data)
    requires Invariante(b) && DoCartao(op)
    ensures SemCartoes(Executar(b, op), ate) == SemCartoes(b, ate)
  {
    match op
    case Pagar(cartao, competencia, valor, data, hoje) =>
      PayStepConserves(b, cartao, competencia, valor, data, hoje, ate);
    case Desfazer(cartao, competencia) =>
      if cartao in b.cartoes {
        UndoConserves(b, cartao, VencimentoDe(b.cartoes[cartao].ciclo, competencia), ate);
      }
    case ExcluirCartao(cartao) => CardDeletionTakesNothingElse(b, cartao);
    case _ =>
  }

  lemma PayStepConserves(b: Banco, cartao: int, competencia: int, valor: int, data: Data, hoje: Data, ate: Data)
    ensures SemCartoes(PagarFaturaSpec(b, cartao, competencia, valor, data, hoje).0, ate) == SemCartoes(b, ate)
  {
    if cartao in b.cartoes {
      var v := VencimentoDe(b.cartoes[cartao].ciclo, competencia);
      PaymentConserves(b, cartao, v, ValorAPagar(FaturaSpec(b, cartao, v, hoje), valor), data, ate);
    }
  }

  /** Purchases, cards and their deletion never touch the account. */
  lemma OnlyPaymentsMoveTheBalance(b: Banco, op: Operacao)
    requires Invariante(b) && DoCartao(op) && !op.Pagar? && !op.Desfazer?
    ensures Executar(b, op).transacoes == b.transacoes && Executar(b, op).pagamentos == b.pagamentos
  {
    match op
    case ExcluirCartao(cartao) => CardDeletionTakesNothingElse(b, cartao);
    case _ =>
  }

  predicate SoCartao(ops: seq<Operacao>) {
    forall i :: 0 <= i < |ops| ==> DoCartao(ops[i])
  }

  /** The same over any run of card steps. */
  lemma {:induction false} CardRunsConserve(b: Banco, ops: seq<Operacao>, ate: Data)
    requires Invariante(b) && SoCartao(ops)
    ensures Invariante(Rodar(b, ops)) && SemCartoes(Rodar(b, ops), ate) == SemCartoes(b, ate)
    decreases |ops|
  {
    if ops != [] {
      CardStepsConserve(b, ops[0], ate);
      StepKeepsInvariant(b, ops[0]);
      CardRunsConserve(Executar(b, ops[0]), ops[1..], ate);
    }
  }

  // ----- undoing -----

  /** Desfazer until it answers ErrFaturaNaoPaga; `n` counts the payments it took away. */
  function DesfazerTudo(b: Banco, cartao: int, v: Data): (r: (Banco, nat))
    decreases |b.pagamentos|
  {
    var (c, r) := RemoverUltimo(b, cartao, v);
    if r.Err? then (b, 0)
    else
      assert |c.pagamentos| < |b.pagamentos| by { UndoShrinks(b, cartao, v); }
      var (d, n) := DesfazerTudo(c, cartao, v);
      (d, n + 1)
  }

  lemma UndoShrinks(b: Banco, cartao: int, v: Data)
    requires RemoverUltimo(b, cartao, v).1.Ok?
    ensures |RemoverUltimo(b, cartao, v).0.pagamentos| < |b.pagamentos|
  {
    var u := MaisRecente(PagamentosEm(b.pagamentos, cartao, v)).valor;
    LatestOfInvoice(b, cartao, v);
    var f := (p: Pagamento) => p.id != u.id;
    FilterShrinks(b.pagamentos, f);
    FilteredRows(b.pagamentos, f);
  }

  /** What the payments of one invoice had taken out before `ate`. */
  function PagoNaFatura(b: Banco, cartao: int, v: Data, ate: Data): int {
    PagoAte(PagamentosEm(b.pagamentos, cartao, v), ate)
  }

  function SemFatura(b: Banco, cartao: int, v: Data, ate: Data): int {
    SaldoAte(b.transacoes, ate) + PagoNaFatura(b, cartao, v, ate)
  }

  lemma InvoiceWithout(s: seq<Pagamento>, teto: int, u: Pagamento)
    requires PagamentosEmOrdem(s, teto) && u in s
    ensures var antes, depois := PagamentosEm(s, u.cartao, u.vencimento),
                                 PagamentosEm(SemPagamento(s, u.id), u.cartao, u.vencimento);
            && depois == SemPagamento(antes, u.id)
            && PagamentosEmOrdem(antes, teto) && u in antes
  {
    var f, g := (p: Pagamento) => p.id != u.id,
                (p: Pagamento) => p.cartao == u.cartao && p.vencimento == u.vencimento;
    FiltersCommute(s, f, g);
    FilteredInOrderP(s, g, teto);
    FilteredRows(s, g);
  }

  /** One undo takes exactly one payment off its invoice and gives its value back. */
  lemma UndoTakesOne(b: Banco, cartao: int, v: Data, ate: Data)
    requires Invariante(b) && RemoverUltimo(b, cartao, v).1.Ok?
    ensures var c := RemoverUltimo(b, cartao, v).0;
            && |PagamentosEm(c.pagamentos, cartao, v)| == |PagamentosEm(b.pagamentos, cartao, v)| - 1
            && SemFatura(c, cartao, v, ate) == SemFatura(b, cartao, v, ate)
  {
    var u := MaisRecente(PagamentosEm(b.pagamentos, cartao, v)).valor;
    LatestOfInvoice(b, cartao, v);
    InvoiceWithout(b.pagamentos, b.proximo, u);
    PaidWithout(PagamentosEm(b.pagamentos, cartao, v), b.proximo, u, ate);
    assert Lastreado(b.transacoes, u);
    BalanceWithout(b.transacoes, b.proximo, Transacao(u.transacao, true, u.valor, u.pagoEm, false), ate);
  }

  lemma NothingToUndo(b: Banco, cartao: int, v: Data)
    ensures RemoverUltimo(b, cartao, v).1.Err? <==> PagamentosEm(b.pagamentos, cartao, v) == []
  {
    LatestIsThere(PagamentosEm(b.pagamentos, cartao, v));
  }

  /** Undoing until there is nothing to undo takes as many steps as the invoice has payments and
      returns, at every date, all they had taken out. */
  lemma {:induction false} UndoAllReturnsEverything(b: Banco, cartao: int, v: Data, ate: Data)
    requires Invariante(b)
    ensures var (d, n) := DesfazerTudo(b, cartao, v);
            && Invariante(d)
            && n == |PagamentosEm(b.pagamentos, cartao, v)|
            && PagamentosEm(d.pagamentos, cartao, v) == []
            && SaldoAte(d.transacoes, ate) == SemFatura(b, cartao, v, ate)
    decreases |b.pagamentos|
  {
    NothingToUndo(b, cartao, v);
    if RemoverUltimo(b, cartao, v).1.Ok? {
      UndoTakesOne(b, cartao, v, ate);
      UndoKeepsInvariant(b, cartao, v);
      UndoShrinks(b, cartao, v);
      UndoAllReturnsEverything(RemoverUltimo(b, cartao, v).0, cartao, v, ate);
    }
  }

  // ----- paying -----

  datatype Pedido = Pedido(valor: int, pagoEm: Data, hoje: Data)

  /** A series of PagarFatura calls on one invoice, refused ones included. */
  function PagarVarias(b: Banco, cartao: int, v: Data, ps: seq<Pedido>): Banco
    requires cartao in b.cartoes
    decreases |ps|
  {
    if ps == [] then b
    else PagarVarias(PagarNaFatura(b, cartao, v, ps[0].valor, ps[0].pagoEm, ps[0].hoje).0, cartao, v, ps[1..])
  }

  lemma PaymentsOfInvoiceGrow(b: Banco, cartao: int, v: Data, valor: int, pagoEm: Data)
    ensures PagamentosEm(GravarPagamento(b, cartao, v, valor, pagoEm).pagamentos, cartao, v)
         == PagamentosEm(b.pagamentos, cartao, v) + [Pagamento(b.proximo + 1, cartao, v, b.proximo, valor, pagoEm)]
  {
    FilterOfAppend(b.pagamentos, Pagamento(b.proximo + 1, cartao, v, b.proximo, valor, pagoEm),
                   (p: Pagamento) => p.cartao == cartao && p.vencimento == v);
  }

  lemma PaymentKeepsSum(b: Banco, cartao: int, v: Data, valor: int, pagoEm: Data, ate: Data)
    ensures SemFatura(GravarPagamento(b, cartao, v, valor, pagoEm), cartao, v, ate) == SemFatura(b, cartao, v, ate)
  {
    PaymentsOfInvoiceGrow(b, cartao, v, valor, pagoEm);
    PaymentConserves(b, cartao, v, valor, pagoEm, ate);
    var s := PagamentosEm(b.pagamentos, cartao, v);
    var p := Pagamento(b.proximo + 1, cartao, v, b.proximo, valor, pagoEm);
    assert (s + [p])[..|s|] == s;
  }

  /** A call of PagarFatura changes nothing or records one payment. */
  lemma PayIsOnePayment(b: Banco, cartao: int, v: Data, p: Pedido, c: Banco) returns (valor: int)
    requires cartao in b.cartoes && c == PagarNaFatura(b, cartao, v, p.valor, p.pagoEm, p.hoje).0
    ensures c == b || c == GravarPagamento(b, cartao, v, valor, p.pagoEm)
  {
    valor := ValorAPagar(FaturaSpec(b, cartao, v, p.hoje), p.valor);
  }

  lemma PayKeepsSum(b: Banco, cartao: int, v: Data, p: Pedido, c: Banco, ate: Data)
    requires cartao in b.cartoes && c == PagarNaFatura(b, cartao, v, p.valor, p.pagoEm, p.hoje).0
    ensures c.cartoes == b.cartoes && SemFatura(c, cartao, v, ate) == SemFatura(b, cartao, v, ate)
  {
    var valor := PayIsOnePayment(b, cartao, v, p, c);
    PaymentKeepsSum(b, cartao, v, valor, p.pagoEm, ate);
  }

  lemma {:induction false} SeriesKeepsSum(b: Banco, cartao: int, v: Data, ps: seq<Pedido>, ate: Data)
    requires Invariante(b) && cartao in b.cartoes
    ensures Invariante(PagarVarias(b, cartao, v, ps))
    ensures SemFatura(PagarVarias(b, cartao, v, ps), cartao, v, ate) == SemFatura(b, cartao, v, ate)
    decreases |ps|
  {
    if ps != [] {
      var p := ps[0];
      var c := PagarNaFatura(b, cartao, v, p.valor, p.pagoEm, p.hoje).0;
      PayKeepsInvariant(b, cartao, v, p.valor, p.pagoEm, p.hoje);
      PayKeepsSum(b, cartao, v, p, c, ate);
      SeriesKeepsSum(c, cartao, v, ps[1..], ate);
    }
  }

  /** However many payments an unpaid invoice receives and whatever their dates, undoing them all
      restores the balance of every date. */
  lemma PayThenUndoAllRestores(b: Banco, cartao: int, v: Data, ps: seq<Pedido>, ate: Data)
    requires Invariante(b) && cartao in b.cartoes && PagamentosEm(b.pagamentos, cartao, v) == []
    ensures var pagas := PagarVarias(b, cartao, v, ps);
            var (d, n) := DesfazerTudo(pagas, cartao, v);
            && n == |PagamentosEm(pagas.pagamentos, cartao, v)|
            && SaldoAte(d.transacoes, ate) == SaldoAte(b.transacoes, ate)
  {
    SeriesKeepsSum(b, cartao, v, ps, ate);
    UndoAllReturnsEverything(PagarVarias(b, cartao, v, ps), cartao, v, ate);
  }

  lemma {:induction false} LatestIsLatest(s: seq<Pagamento>)
    ensures forall p :: p in s ==> MaisRecente(s).Algo? && !Antes(MaisRecente(s).valor.pagoEm, p.pagoEm)
  {
    if s != [] {
      LatestIsLatest(s[..|s| - 1]);
      LatestIsThere(s[..|s| - 1]);
      assert s == s[..|s| - 1] + [s[|s| - 1]];
    }
  }

  lemma RemovingTheNewest(b: Banco, cartao: int, v: Data, valor: int, pagoEm: Data)
    requires Invariante(b)
    ensures var c := GravarPagamento(b, cartao, v, valor, pagoEm);
            SemPagamento(c.pagamentos, b.proximo + 1) == b.pagamentos
            && SemTransacao(c.transacoes, b.proximo) == b.transacoes
  {
    RemovedFromEnd(b.pagamentos, Pagamento(b.proximo + 1, cartao, v, b.proximo, valor, pagoEm),
                   Pagamento(b.proximo + 1, cartao, v, b.proximo, valor, pagoEm));
    NewestTransactionOff(b.transacoes, Transacao(b.proximo, true, valor, pagoEm, false));
  }

  lemma NewestTransactionOff(s: seq<Transacao>, t: Transacao)
    requires TransacoesEmOrdem(s, t.id)
    ensures SemTransacao(s + [t], t.id) == s
  {
    var f := (x: Transacao) => x.id != t.id;
    IdsBelow(s, t.id);
    FilterKeepsAll(s, f);
    FilterOfAppend(s, t, f);
  }

  /** The payment is dated no earlier than any other of its invoice. */
  predicate EmDia(b: Banco, cartao: int, v: Data, pagoEm: Data) {
    forall p :: p in PagamentosEm(b.pagamentos, cartao, v) ==> !Antes(pagoEm, p.pagoEm)
  }

  /** One undo takes back the payment just made, and nothing else, exactly when it is dated no
      earlier than the others: undo goes by payment date, not by what was recorded last. */
  lemma UndoInvertsPayIff(b: Banco, cartao: int, v: Data, valor: int, pagoEm: Data)
    requires Invariante(b)
    ensures var c := GravarPagamento(b, cartao, v, valor, pagoEm);
            RemoverUltimo(c, cartao, v).0 == b.(proximo := c.proximo) <==> EmDia(b, cartao, v, pagoEm)
  {
    var c := GravarPagamento(b, cartao, v, valor, pagoEm);
    var s := PagamentosEm(b.pagamentos, cartao, v);
    var novo := Pagamento(b.proximo + 1, cartao, v, b.proximo, valor, pagoEm);
    PaymentsOfInvoiceGrow(b, cartao, v, valor, pagoEm);
    assert (s + [novo])[..|s|] == s;
    LatestIsLatest(s);
    LatestIsThere(s);
    if EmDia(b, cartao, v, pagoEm) {
      assert MaisRecente(s + [novo]) == Algo(novo);
      RemovingTheNewest(b, cartao, v, valor, pagoEm);
    } else {
      var u := MaisRecente(s).valor;
      assert MaisRecente(s + [novo]) == Algo(u);
      AnotherIsRemoved(b, c, cartao, v, novo, u);
    }
  }

  lemma AnotherIsRemoved(b: Banco, c: Banco, cartao: int, v: Data, novo: Pagamento, u: Pagamento)
    requires Invariante(b) && c.pagamentos == b.pagamentos + [novo] && novo.id == b.proximo + 1
    requires u in PagamentosEm(b.pagamentos, cartao, v)
    ensures SemPagamento(c.pagamentos, u.id) != b.pagamentos
  {
    FilteredRows(b.pagamentos, (p: Pagamento) => p.cartao == cartao && p.vencimento == v);
    IdsBelowP(b.pagamentos, b.proximo);
    FilteredRows(c.pagamentos, (p: Pagamento) => p.id != u.id);
    assert novo in SemPagamento(c.pagamentos, u.id) && novo !in b.pagamentos;
  }
}
