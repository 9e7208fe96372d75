/** What every serial run of card and transaction steps keeps. */
module LivroInvariante {
  import opened Comum
  import opened Calendario
  import opened CicloCartao
  import opened Tabelas
  import opened Fatura
  import opened Livro

  // ----- the invariant -----

  /** Ids grow with the order of insertion and stay below the counter. */
  predicate TransacoesEmOrdem(s: seq<Transacao>, teto: int) {
    s == [] || (s[|s| - 1].id < teto && TransacoesEmOrdem(s[..|s| - 1], s[|s| - 1].id))
  }

  predicate PagamentosEmOrdem(s: seq<Pagamento>, teto: int) {
    s == [] || (s[|s| - 1].transacao + 1 == s[|s| - 1].id < teto
                && PagamentosEmOrdem(s[..|s| - 1], s[|s| - 1].transacao))
  }

  /** The payment's own saída, of equal value and date. */
  predicate Lastreado(ts: seq<Transacao>, p: Pagamento) {
    Transacao(p.transacao, true, p.valor, p.pagoEm, false) in ts
  }

  predicate NaFatura(c: Compra, cartao: int, v: Data) {
    c.cartao == cartao && c.vencimento == v
  }

  predicate TemFatura(cs: seq<Compra>, cartao: int, v: Data) {
    exists c :: c in cs && NaFatura(c, cartao, v)
  }

  predicate TudoLastreado(b: Banco) {
    forall p :: p in b.pagamentos ==> Lastreado(b.transacoes, p) && p.valor > 0
  }

  predicate TudoComCompras(b: Banco) {
    forall p :: p in b.pagamentos ==> TemFatura(b.compras, p.cartao, p.vencimento)
  }

  predicate ComprasSas(b: Banco) {
    forall c :: c in b.compras ==> c.valor > 0 && c.cartao in b.cartoes && c.grupo < b.proximo
  }

  predicate CartoesSaos(b: Banco) {
    forall k :: k in b.cartoes ==> CartaoValido(b.cartoes[k].ciclo) && k < b.proximo
  }

  predicate Invariante(b: Banco) {
    && TransacoesEmOrdem(b.transacoes, b.proximo)
    && PagamentosEmOrdem(b.pagamentos, b.proximo)
    && TudoLastreado(b)
    && TudoComCompras(b)
    && ComprasSas(b)
    && CartoesSaos(b)
  }

  // ----- ordered tables -----

  lemma {:induction false} OrderBelow(s: seq<Transacao>, a: int, b: int)
    requires TransacoesEmOrdem(s, a) && a <= b
    ensures TransacoesEmOrdem(s, b)
  {
  }

  lemma {:induction false} OrderBelowP(s: seq<Pagamento>, a: int, b: int)
    requires PagamentosEmOrdem(s, a) && a <= b
    ensures PagamentosEmOrdem(s, b)
  {
  }

  lemma {:induction false} FilteredInOrder(s: seq<Transacao>, f: Transacao -> bool, teto: int)
    requires TransacoesEmOrdem(s, teto)
    ensures TransacoesEmOrdem(Filtrar(s, f), teto)
  {
    if s != [] {
      var u := s[|s| - 1];
      FilteredInOrder(s[..|s| - 1], f, u.id);
      OrderBelow(Filtrar(s[..|s| - 1], f), u.id, teto);
      var r := Filtrar(s[..|s| - 1], f);
      assert (r + [u])[..|r|] == r && r + [] == r;
    }
  }

  lemma {:induction false} FilteredInOrderP(s: seq<Pagamento>, f: Pagamento -> bool, teto: int)
    requires PagamentosEmOrdem(s, teto)
    ensures PagamentosEmOrdem(Filtrar(s, f), teto)
  {
    if s != [] {
      var u := s[|s| - 1];
      FilteredInOrderP(s[..|s| - 1], f, u.transacao);
      OrderBelowP(Filtrar(s[..|s| - 1], f), u.transacao, teto);
      var r := Filtrar(s[..|s| - 1], f);
      assert (r + [u])[..|r|] == r && r + [] == r;
    }
  }

  lemma {:induction false} IdsBelow(s: seq<Transacao>, teto: int)
    requires TransacoesEmOrdem(s, teto)
    ensures forall t :: t in s ==> t.id < teto
  {
    if s != [] {
      IdsBelow(s[..|s| - 1], s[|s| - 1].id);
      assert s == s[..|s| - 1] + [s[|s| - 1]];
    }
  }

  lemma {:induction false} IdsBelowP(s: seq<Pagamento>, teto: int)
    requires PagamentosEmOrdem(s, teto)
    ensures forall p :: p in s ==> p.id < teto && p.transacao + 1 == p.id
  {
    if s != [] {
      IdsBelowP(s[..|s| - 1], s[|s| - 1].transacao);
      assert s == s[..|s| - 1] + [s[|s| - 1]];
    }
  }

  lemma {:induction false} IdsAreUnique(s: seq<Transacao>, teto: int, a: Transacao, b: Transacao)
    requires TransacoesEmOrdem(s, teto) && a in s && b in s && a.id == b.id
    ensures a == b
  {
    var r, u := s[..|s| - 1], s[|s| - 1];
    assert s == r + [u];
    IdsBelow(r, u.id);
    if a != u {
      IdsAreUnique(r, u.id, a, b);
    }
  }

  /** UNIQUE (transacao_id): a saída backs one payment and only one. */
  lemma {:induction false} BackingIsUnique(s: seq<Pagamento>, teto: int, a: Pagamento, b: Pagamento)
    requires PagamentosEmOrdem(s, teto) && a in s && b in s && a.transacao == b.transacao
    ensures a == b
  {
    var r, u := s[..|s| - 1], s[|s| - 1];
    assert s == r + [u];
    IdsBelowP(r, u.transacao);
    if a != u {
      BackingIsUnique(r, u.transacao, a, b);
    }
  }

  // ----- the steps -----

  lemma PurchaseKeepsInvariant(b: Banco, cartao: int, data: Data, ps: seq<Parcela>)
    requires Invariante(b) && cartao in b.cartoes && ps != []
    requires forall i :: 0 <= i < |ps| ==> ps[i].valor >= 1
    ensures Invariante(LancarCompra(b, cartao, data, ps).0)
  {
    var novo := GravarCompras(b, cartao, data, ps);
    OrderBelow(b.transacoes, b.proximo, novo.proximo);
    OrderBelowP(b.pagamentos, b.proximo, novo.proximo);
    MorePurchases(b, novo);
  }

  lemma MorePurchases(b: Banco, novo: Banco)
    requires TudoComCompras(b) && novo.pagamentos == b.pagamentos
    requires forall c :: c in b.compras ==> c in novo.compras
    ensures TudoComCompras(novo)
  {
    forall p | p in novo.pagamentos
      ensures TemFatura(novo.compras, p.cartao, p.vencimento)
    {
      var c :| c in b.compras && NaFatura(c, p.cartao, p.vencimento);
      assert c in novo.compras;
    }
  }

  lemma ExclusionKeepsInvariant(b: Banco, grupo: int)
    requires Invariante(b)
    ensures Invariante(ExcluirCompraSpec(b, grupo).0)
  {
    if ExcluirCompraSpec(b, grupo).1.Ok? {
      var novo := ExcluirCompraSpec(b, grupo).0;
      FilteredRows(b.compras, (c: Compra) => c.grupo != grupo);
      forall p | p in novo.pagamentos
        ensures TemFatura(novo.compras, p.cartao, p.vencimento)
      {
        var c :| c in b.compras && NaFatura(c, p.cartao, p.vencimento);
        assert c.grupo != grupo;
        assert c in novo.compras;
      }
    }
  }

  lemma PaymentKeepsInvariant(b: Banco, cartao: int, v: Data, valor: int, pagoEm: Data)
    requires Invariante(b) && valor > 0 && TemFatura(b.compras, cartao, v)
    ensures Invariante(GravarPagamento(b, cartao, v, valor, pagoEm))
  {
    var novo := GravarPagamento(b, cartao, v, valor, pagoEm);
    assert novo.transacoes[..|novo.transacoes| - 1] == b.transacoes;
    assert novo.pagamentos[..|novo.pagamentos| - 1] == b.pagamentos;
    var p := novo.pagamentos[|b.pagamentos|];
    assert Lastreado(novo.transacoes, p) by { assert novo.transacoes[|b.transacoes|] in novo.transacoes; }
    forall q | q in novo.pagamentos
      ensures Lastreado(novo.transacoes, q) && q.valor > 0 && TemFatura(novo.compras, q.cartao, q.vencimento)
    {
      if q in b.pagamentos {
        assert Lastreado(b.transacoes, q);
      } else {
        assert q == p;
      }
    }
  }

  lemma {:induction false} PositiveTotalHasRows(b: Banco, s: seq<Compra>, cartao: int, v: Data)
    requires SomaCompras(ComprasDaFatura(s, cartao, v)) > 0
    ensures TemFatura(s, cartao, v)
  {
    FilteredRows(s, (c: Compra) => c.cartao == cartao && c.vencimento == v);
    var r := ComprasDaFatura(s, cartao, v);
    assert r[|r| - 1] in r;
    assert NaFatura(r[|r| - 1], cartao, v);
  }

  lemma PayKeepsInvariant(b: Banco, cartao: int, v: Data, valor: int, pagoEm: Data, hoje: Data)
    requires Invariante(b) && cartao in b.cartoes
    ensures Invariante(PagarNaFatura(b, cartao, v, valor, pagoEm, hoje).0)
  {
    var f := FaturaSpec(b, cartao, v, hoje);
    if PagarNaFatura(b, cartao, v, valor, pagoEm, hoje).1.Ok? {
      PositiveTotalHasRows(b, b.compras, cartao, v);
      PaymentKeepsInvariant(b, cartao, v, ValorAPagar(f, valor), pagoEm);
    }
  }

  /** Taking out some payments and some saídas, as long as no payment left loses its own. */
  lemma RemovalKeepsInvariant(b: Banco, novo: Banco, fp: Pagamento -> bool, ft: Transacao -> bool)
    requires Invariante(b)
    requires novo == b.(pagamentos := Filtrar(b.pagamentos, fp), transacoes := Filtrar(b.transacoes, ft))
    requires forall p :: p in b.pagamentos && fp(p) ==> ft(Transacao(p.transacao, true, p.valor, p.pagoEm, false))
    ensures Invariante(novo)
  {
    FilteredInOrder(b.transacoes, ft, b.proximo);
    FilteredInOrderP(b.pagamentos, fp, b.proximo);
    FilteredRows(b.pagamentos, fp);
    FilteredRows(b.transacoes, ft);
    assert TudoComCompras(novo);
    forall p | p in novo.pagamentos
      ensures Lastreado(novo.transacoes, p) && p.valor > 0
    {
      assert p in b.pagamentos && Lastreado(b.transacoes, p);
    }
  }

  lemma {:induction false} LatestIsThere(s: seq<Pagamento>)
    ensures MaisRecente(s).Nada? <==> s == []
    ensures MaisRecente(s).Algo? ==> MaisRecente(s).valor in s
  {
    if s != [] {
      var r := s[..|s| - 1];
      LatestIsThere(r);
      if MaisRecente(r).Algo? {
        RowOfPrefix(s, MaisRecente(r).valor);
      }
    }
  }

  lemma LatestOfInvoice(b: Banco, cartao: int, v: Data)
    requires RemoverUltimo(b, cartao, v).1.Ok?
    ensures var u := MaisRecente(PagamentosEm(b.pagamentos, cartao, v)).valor;
            u in b.pagamentos && u.cartao == cartao && u.vencimento == v
  {
    LatestIsThere(PagamentosEm(b.pagamentos, cartao, v));
    FilteredRows(b.pagamentos, (p: Pagamento) => p.cartao == cartao && p.vencimento == v);
  }

  lemma UndoKeepsInvariant(b: Banco, cartao: int, v: Data)
    requires Invariante(b)
    ensures Invariante(RemoverUltimo(b, cartao, v).0)
  {
    if RemoverUltimo(b, cartao, v).1.Ok? {
      var u := MaisRecente(PagamentosEm(b.pagamentos, cartao, v)).valor;
      LatestOfInvoice(b, cartao, v);
      IdsBelowP(b.pagamentos, b.proximo);
      RemovalKeepsInvariant(b, RemoverUltimo(b, cartao, v).0,
                            (p: Pagamento) => p.id != u.id, (t: Transacao) => t.id != u.transacao);
    }
  }

  lemma TransactionRemovalKeepsInvariant(b: Banco, id: int)
    requires Invariante(b)
    ensures Invariante(ExcluirTransacaoSpec(b, id).0)
  {
    if ExcluirTransacaoSpec(b, id).1.Ok? {
      RemovalKeepsInvariant(b, ExcluirTransacaoSpec(b, id).0,
                            (p: Pagamento) => p.transacao != id, (t: Transacao) => t.id != id);
    }
  }

  /** Only a card without purchases can go, so its deletion takes no payment with it and strands no
      saída. */
  lemma CardDeletionTakesNothingElse(b: Banco, cartao: int)
    requires Invariante(b)
    ensures var novo := ExcluirCartaoSpec(b, cartao).0;
            novo.pagamentos == b.pagamentos && novo.compras == b.compras && novo.transacoes == b.transacoes
    ensures Invariante(ExcluirCartaoSpec(b, cartao).0)
  {
    if ExcluirCartaoSpec(b, cartao).1.Ok? {
      EmptyCardHasNothing(b, cartao);
      CardRemovalKeepsInvariant(b, cartao);
    }
  }

  lemma EmptyCardHasNothing(b: Banco, cartao: int)
    requires TudoComCompras(b) && !TemCompras(b, cartao)
    ensures SemCartaoC(b.compras, cartao) == b.compras && SemCartaoP(b.pagamentos, cartao) == b.pagamentos
  {
    forall p | p in b.pagamentos
      ensures p.cartao != cartao
    {
      var c :| c in b.compras && NaFatura(c, p.cartao, p.vencimento);
      assert c.cartao != cartao;
    }
    FilterKeepsAll(b.compras, (c: Compra) => c.cartao != cartao);
    FilterKeepsAll(b.pagamentos, (p: Pagamento) => p.cartao != cartao);
  }

  lemma CardRemovalKeepsInvariant(b: Banco, cartao: int)
    requires Invariante(b) && !TemCompras(b, cartao)
    ensures Invariante(b.(cartoes := b.cartoes - {cartao}))
  {
    var novo := b.(cartoes := b.cartoes - {cartao});
    forall c | c in novo.compras
      ensures c.valor > 0 && c.cartao in novo.cartoes && c.grupo < novo.proximo
    {
      assert c.cartao != cartao;
    }
    assert CartoesSaos(novo);
  }

  lemma NewTransactionKeepsInvariant(b: Banco, saida: bool, valor: int, data: Data)
    requires Invariante(b)
    ensures Invariante(CriarTransacaoSpec(b, saida, valor, data).0)
  {
    var novo := CriarTransacaoSpec(b, saida, valor, data).0;
    if novo != b {
      assert novo.transacoes[..|b.transacoes|] == b.transacoes;
      OrderBelowP(b.pagamentos, b.proximo, novo.proximo);
      forall p | p in novo.pagamentos
        ensures Lastreado(novo.transacoes, p) && p.valor > 0
      {
        assert Lastreado(b.transacoes, p);
      }
    }
  }

  // ----- editing a transaction -----

  /** The edit leaves alone, or sets to the same values, the saída of a payment. */
  predicate EdicaoSegura(b: Banco, id: int, saida: bool, valor: int, data: Data) {
    forall p :: p in b.pagamentos && p.transacao == id ==> saida && valor == p.valor && data == p.pagoEm
  }

  lemma EditedRows(s: seq<Transacao>, id: int, saida: bool, valor: int, data: Data)
    ensures forall t :: t in s ==> Editada(t, id, saida, valor, data) in ComEdicao(s, id, saida, valor, data)
    ensures forall t :: t in ComEdicao(s, id, saida, valor, data) && t.id == id ==>
              t.saida == saida && t.valor == valor && t.data == data
  {
    var r := ComEdicao(s, id, saida, valor, data);
    forall t | t in s
      ensures Editada(t, id, saida, valor, data) in r
    {
      var i :| 0 <= i < |s| && s[i] == t;
      assert r[i] == Editada(t, id, saida, valor, data);
    }
  }

  lemma {:induction false} EditKeepsOrder(s: seq<Transacao>, id: int, saida: bool, valor: int, data: Data, teto: int)
    requires TransacoesEmOrdem(s, teto)
    ensures TransacoesEmOrdem(ComEdicao(s, id, saida, valor, data), teto)
  {
    if s != [] {
      EditKeepsOrder(s[..|s| - 1], id, saida, valor, data, s[|s| - 1].id);
      var r := ComEdicao(s, id, saida, valor, data);
      assert r[..|r| - 1] == ComEdicao(s[..|s| - 1], id, saida, valor, data);
    }
  }

  /** Editing a transaction keeps every payment backed if and only if it does not change the type,
      value or date of a payment's saída. Nothing in the service checks that. */
  lemma EditKeepsInvariantIff(b: Banco, id: int, saida: bool, valor: int, data: Data)
    requires Invariante(b) && EditarTransacaoSpec(b, id, saida, valor, data).1.Ok?
    ensures Invariante(EditarTransacaoSpec(b, id, saida, valor, data).0) <==> EdicaoSegura(b, id, saida, valor, data)
  {
    var novo := EditarTransacaoSpec(b, id, saida, valor, data).0;
    EditedRows(b.transacoes, id, saida, valor, data);
    EditKeepsOrder(b.transacoes, id, saida, valor, data, b.proximo);
    if EdicaoSegura(b, id, saida, valor, data) {
      forall p | p in novo.pagamentos
        ensures Lastreado(novo.transacoes, p) && p.valor > 0
      {
        var t := Transacao(p.transacao, true, p.valor, p.pagoEm, false);
        assert Lastreado(b.transacoes, p);
        assert Editada(t, id, saida, valor, data) == t;
      }
      assert TudoComCompras(novo);
    } else {
      var p :| p in b.pagamentos && p.transacao == id && !(saida && valor == p.valor && data == p.pagoEm);
      assert !Lastreado(novo.transacoes, p);
    }
  }

  // ----- runs -----

  datatype Operacao =
    | CriarCartao(cadastro: CadastroCartao)
    | AtualizarCartao(cartao: int, cadastro: CadastroCartao, ativo: Opcao<bool>)
    | ExcluirCartao(cartao: int)
    | RegistrarCompra(cartao: int, valor: int, data: Data, parcelas: int, descricao: string)
    | ExcluirCompra(grupo: int)
    | Pagar(cartao: int, competencia: int, valor: int, data: Data, hoje: Data)
    | Desfazer(cartao: int, competencia: int)
    | CriarTransacao(saida: bool, valor: int, data: Data)
    | EditarTransacao(id: int, saida: bool, valor: int, data: Data)
    | ExcluirTransacao(id: int)

  function Executar(b: Banco, op: Operacao): Banco {
    match op
    case CriarCartao(cadastro) => CriarCartaoSpec(b, cadastro).0
    case AtualizarCartao(cartao, cadastro, ativo) => AtualizarCartaoSpec(b, cartao, cadastro, ativo).0
    case ExcluirCartao(cartao) => ExcluirCartaoSpec(b, cartao).0
    case RegistrarCompra(cartao, valor, data, parcelas, descricao) =>
      RegistrarCompraSpec(b, cartao, valor, data, parcelas, descricao).0
    case ExcluirCompra(grupo) => ExcluirCompraSpec(b, grupo).0
    case Pagar(cartao, competencia, valor, data, hoje) => PagarFaturaSpec(b, cartao, competencia, valor, data, hoje).0
    case Desfazer(cartao, competencia) => DesfazerPagamentoSpec(b, cartao, competencia).0
    case CriarTransacao(saida, valor, data) => CriarTransacaoSpec(b, saida, valor, data).0
    case EditarTransacao(id, saida, valor, data) => EditarTransacaoSpec(b, id, saida, valor, data).0
    case ExcluirTransacao(id) => ExcluirTransacaoSpec(b, id).0
  }

  predicate Segura(b: Banco, op: Operacao) {
    op.EditarTransacao? ==> EdicaoSegura(b, op.id, op.saida, op.valor, op.data)
  }

  lemma RegisterKeepsInvariant(b: Banco, cartao: int, valor: int, data: Data, parcelas: int, descricao: string)
    requires Invariante(b)
    ensures Invariante(RegistrarCompraSpec(b, cartao, valor, data, parcelas, descricao).0)
  {
    if RegistrarCompraSpec(b, cartao, valor, data, parcelas, descricao).1.Ok? {
      PurchaseIsDividedExactly(b.cartoes[cartao].ciclo, valor, data, parcelas);
      PurchaseKeepsInvariant(b, cartao, data,
                             NewCompraCartaoSpec(b.cartoes[cartao].ciclo, valor, data, parcelas).valor);
    }
  }

  lemma NewCardKeepsInvariant(b: Banco, cadastro: CadastroCartao)
    requires Invariante(b)
    ensures Invariante(CriarCartaoSpec(b, cadastro).0)
  {
    OrderBelow(b.transacoes, b.proximo, b.proximo + 1);
    OrderBelowP(b.pagamentos, b.proximo, b.proximo + 1);
  }

  lemma CardUpdateKeepsInvariant(b: Banco, cartao: int, cadastro: CadastroCartao, ativo: Opcao<bool>)
    requires Invariante(b)
    ensures Invariante(AtualizarCartaoSpec(b, cartao, cadastro, ativo).0)
  {
  }

  lemma EditKeepsInvariant(b: Banco, id: int, saida: bool, valor: int, data: Data)
    requires Invariante(b) && EdicaoSegura(b, id, saida, valor, data)
    ensures Invariante(EditarTransacaoSpec(b, id, saida, valor, data).0)
  {
    if EditarTransacaoSpec(b, id, saida, valor, data).1.Ok? {
      EditKeepsInvariantIff(b, id, saida, valor, data);
    }
  }

  lemma PayByMonthKeepsInvariant(b: Banco, cartao: int, competencia: int, valor: int, data: Data, hoje: Data)
    requires Invariante(b)
    ensures Invariante(PagarFaturaSpec(b, cartao, competencia, valor, data, hoje).0)
  {
    if cartao in b.cartoes {
      PayKeepsInvariant(b, cartao, VencimentoDe(b.cartoes[cartao].ciclo, competencia), valor, data, hoje);
    }
  }

  lemma UndoByMonthKeepsInvariant(b: Banco, cartao: int, competencia: int)
    requires Invariante(b)
    ensures Invariante(DesfazerPagamentoSpec(b, cartao, competencia).0)
  {
    if cartao in b.cartoes {
      UndoKeepsInvariant(b, cartao, VencimentoDe(b.cartoes[cartao].ciclo, competencia));
    }
  }

  predicate DeCartaoOuCompra(op: Operacao) {
    op.CriarCartao? || op.AtualizarCartao? || op.ExcluirCartao? || op.RegistrarCompra? || op.ExcluirCompra?
  }

  lemma CardStepKeepsInvariant(b: Banco, op: Operacao)
    requires Invariante(b) && DeCartaoOuCompra(op)
    ensures Invariante(Executar(b, op))
  {
    match op
    case CriarCartao(cadastro) => NewCardKeepsInvariant(b, cadastro);
    case AtualizarCartao(cartao, cadastro, ativo) => CardUpdateKeepsInvariant(b, cartao, cadastro, ativo);
    case ExcluirCartao(cartao) => CardDeletionTakesNothingElse(b, cartao);
    case RegistrarCompra(cartao, valor, data, parcelas, descricao) =>
      RegisterKeepsInvariant(b, cartao, valor, data, parcelas, descricao);
    case ExcluirCompra(grupo) => ExclusionKeepsInvariant(b, grupo);
  }

  lemma MoneyStepKeepsInvariant(b: Banco, op: Operacao)
    requires Invariante(b) && !DeCartaoOuCompra(op) && Segura(b, op)
    ensures Invariante(Executar(b, op))
  {
    match op
    case Pagar(cartao, competencia, valor, data, hoje) =>
      PayByMonthKeepsInvariant(b, cartao, competencia, valor, data, hoje);
    case Desfazer(cartao, competencia) => UndoByMonthKeepsInvariant(b, cartao, competencia);
    case CriarTransacao(saida, valor, data) => NewTransactionKeepsInvariant(b, saida, valor, data);
    case EditarTransacao(id, saida, valor, data) => EditKeepsInvariant(b, id, saida, valor, data);
    case ExcluirTransacao(id) => TransactionRemovalKeepsInvariant(b, id);
  }

  lemma StepKeepsInvariant(b: Banco, op: Operacao)
    requires Invariante(b) && Segura(b, op)
    ensures Invariante(Executar(b, op))
  {
    if DeCartaoOuCompra(op) {
      CardStepKeepsInvariant(b, op);
    } else {
      MoneyStepKeepsInvariant(b, op);
    }
  }

  function Rodar(b: Banco, ops: seq<Operacao>): Banco
    decreases |ops|
  {
    if ops == [] then b else Rodar(Executar(b, ops[0]), ops[1..])
  }

  predicate RodadaSegura(b: Banco, ops: seq<Operacao>)
    decreases |ops|
  {
    ops == [] || (Segura(b, ops[0]) && RodadaSegura(Executar(b, ops[0]), ops[1..]))
  }

  /** Over every serial run of card steps, transaction steps and edits that leave payments alone:
      each payment keeps its own saída of equal value and date, and its invoice a purchase. */
  lemma {:induction false} RunKeepsInvariant(b: Banco, ops: seq<Operacao>)
    requires Invariante(b) && RodadaSegura(b, ops)
    ensures Invariante(Rodar(b, ops))
    decreases |ops|
  {
    if ops != [] {
      StepKeepsInvariant(b, ops[0]);
      RunKeepsInvariant(Executar(b, ops[0]), ops[1..]);
    }
  }

  /** A run without edits is one. */
  lemma {:induction false} NoEditsAreSafe(b: Banco, ops: seq<Operacao>)
    requires forall i :: 0 <= i < |ops| ==> !ops[i].EditarTransacao?
    ensures RodadaSegura(b, ops)
    decreases |ops|
  {
    if ops != [] {
      NoEditsAreSafe(Executar(b, ops[0]), ops[1..]);
    }
  }

  lemma LastStep(b: Banco, ops: seq<Operacao>, op: Operacao)
    ensures Rodar(b, ops + [op]) == Executar(Rodar(b, ops), op)
    decreases |ops|
  {
    if ops == [] {
      assert [] + [op] == [op] && [op][1..] == [];
      assert Rodar(Executar(b, op), []) == Executar(b, op);
    } else {
      LastStep(Executar(b, ops[0]), ops[1..], op);
      assert (ops + [op])[1..] == ops[1..] + [op];
    }
  }

  const LIVRO_VAZIO := Banco(map[], [], [], [], 1)

  /** In particular every ledger such a run can reach from empty tables. */
  lemma ReachableLedgersAreSound(ops: seq<Operacao>)
    requires RodadaSegura(LIVRO_VAZIO, ops)
    ensures Invariante(Rodar(LIVRO_VAZIO, ops))
  {
    RunKeepsInvariant(LIVRO_VAZIO, ops);
  }

  // ----- an invoice with payments -----

  predicate TemPagamento(b: Banco, cartao: int, v: Data) {
    exists p :: p in b.pagamentos && p.cartao == cartao && p.vencimento == v
  }

  /** Of the purchases on an invoice, `depois` keeps all of `antes` and adds later instalments only. */
  predicate SoGanhaParcelasSeguintes(antes: seq<Compra>, depois: seq<Compra>, cartao: int, v: Data) {
    && (forall c :: c in antes && NaFatura(c, cartao, v) ==> c in depois)
    && (forall c :: c in depois && NaFatura(c, cartao, v) && c !in antes ==> c.numero >= 2)
  }

  lemma PurchaseOnPaidInvoice(b: Banco, cartao: int, data: Data, ps: seq<Parcela>, k: int, v: Data)
    requires TemPagamento(b, k, v) && ps != []
    requires forall i :: 0 <= i < |ps| ==> ps[i].numero == i + 1
    ensures SoGanhaParcelasSeguintes(b.compras, LancarCompra(b, cartao, data, ps).0.compras, k, v)
  {
    var r := LancarCompra(b, cartao, data, ps);
    if r.1.Ok? {
      FilteredRows(b.pagamentos, (p: Pagamento) => p.cartao == cartao && p.vencimento == ps[0].vencimento);
      forall c | c in r.0.compras && NaFatura(c, k, v) && c !in b.compras
        ensures c.numero >= 2
      {
        var novas := NovasCompras(cartao, b.proximo, data, ps);
        assert c in novas;
        var i :| 0 <= i < |novas| && novas[i] == c;
        assert c.numero == i + 1;
      }
    }
  }

  lemma ExclusionSparesPaidInvoice(b: Banco, grupo: int, k: int, v: Data)
    requires TemPagamento(b, k, v)
    ensures SoGanhaParcelasSeguintes(b.compras, ExcluirCompraSpec(b, grupo).0.compras, k, v)
  {
    FilteredRows(b.compras, (c: Compra) => c.grupo != grupo);
    var p :| p in b.pagamentos && p.cartao == k && p.vencimento == v;
    if !GrupoTemPagamento(b, grupo) {
      forall c | c in b.compras && NaFatura(c, k, v)
        ensures c.grupo != grupo
      {
      }
    }
  }

  /** No step takes a purchase off an invoice that has payments, and the only purchases it can still
      gain are second or later instalments. */
  lemma PaidInvoiceIsFrozen(b: Banco, op: Operacao, k: int, v: Data)
    requires Invariante(b) && TemPagamento(b, k, v)
    ensures SoGanhaParcelasSeguintes(b.compras, Executar(b, op).compras, k, v)
  {
    match op
    case RegistrarCompra(cartao, valor, data, parcelas, descricao) =>
      RegisterOnPaidInvoice(b, cartao, valor, data, parcelas, descricao, k, v);
    case ExcluirCompra(grupo) => ExclusionSparesPaidInvoice(b, grupo, k, v);
    case ExcluirCartao(cartao) => CardDeletionTakesNothingElse(b, cartao);
    case _ => OtherStepsKeepPurchases(b, op);
  }

  lemma OtherStepsKeepPurchases(b: Banco, op: Operacao)
    requires !op.RegistrarCompra? && !op.ExcluirCompra? && !op.ExcluirCartao?
    ensures Executar(b, op).compras == b.compras
  {
  }

  lemma RegisterOnPaidInvoice(b: Banco, cartao: int, valor: int, data: Data, parcelas: int, descricao: string,
                              k: int, v: Data)
    requires TemPagamento(b, k, v)
    ensures SoGanhaParcelasSeguintes(b.compras,
                                     RegistrarCompraSpec(b, cartao, valor, data, parcelas, descricao).0.compras, k, v)
  {
    if cartao in b.cartoes && NewCompraCartaoSpec(b.cartoes[cartao].ciclo, valor, data, parcelas).Ok? {
      PurchaseIsDividedExactly(b.cartoes[cartao].ciclo, valor, data, parcelas);
      PurchaseOnPaidInvoice(b, cartao, data, NewCompraCartaoSpec(b.cartoes[cartao].ciclo, valor, data, parcelas).valor,
                            k, v);
    }
  }

  predicate SemprePaga(b: Banco, ops: seq<Operacao>, k: int, v: Data)
    decreases |ops|
  {
    ops == [] || (TemPagamento(b, k, v) && SemprePaga(Executar(b, ops[0]), ops[1..], k, v))
  }

  /** The same over a run throughout which the invoice has payments. */
  lemma {:induction false} RunFreezesPaidInvoice(b: Banco, ops: seq<Operacao>, k: int, v: Data)
    requires Invariante(b) && RodadaSegura(b, ops) && SemprePaga(b, ops, k, v)
    ensures SoGanhaParcelasSeguintes(b.compras, Rodar(b, ops).compras, k, v)
    decreases |ops|
  {
    if ops != [] {
      StepKeepsInvariant(b, ops[0]);
      PaidInvoiceIsFrozen(b, ops[0], k, v);
      RunFreezesPaidInvoice(Executar(b, ops[0]), ops[1..], k, v);
      FrozenTwice(b.compras, Executar(b, ops[0]).compras, Rodar(b, ops).compras, k, v);
    }
  }

  lemma FrozenTwice(antes: seq<Compra>, meio: seq<Compra>, depois: seq<Compra>, k: int, v: Data)
    requires SoGanhaParcelasSeguintes(antes, meio, k, v) && SoGanhaParcelasSeguintes(meio, depois, k, v)
    ensures SoGanhaParcelasSeguintes(antes, depois, k, v)
  {
  }
}
