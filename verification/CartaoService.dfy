/** CartaoService and the repository rows it changes, step by step. Each method is proved to take the
    tables to what the operation's specification in Livro says. */
module CartaoService {
  import opened Comum
  import opened Texto
  import opened Centavos
  import opened Calendario
  import opened CicloCartao
  import opened Tabelas
  import opened Fatura
  import opened Livro

  class CartaoService {
    var cartoes: map<int, CartaoSalvo>
    var compras: seq<Compra>
    var pagamentos: seq<Pagamento>
    var transacoes: seq<Transacao>
    var proximo: int

    function Foto(): Banco
      reads this
    {
      Banco(cartoes, compras, pagamentos, transacoes, proximo)
    }

    constructor ()
      ensures Foto() == Banco(map[], [], [], [], 1)
    {
      cartoes, compras, pagamentos, transacoes, proximo := map[], [], [], [], 1;
    }

    // ----- repository -----

    /** One transaction: a row that does not fit undoes the ones before it. */
    method CreateCompras(cartao: int, data: Data, ps: seq<Parcela>, descricao: string) returns (ok: bool)
      modifies this
      ensures ok == CabeNaColuna(descricao, |ps|)
      ensures Foto() == if ok then GravarCompras(old(Foto()), cartao, data, ps) else old(Foto())
    {
      var grupo, linhas := proximo, compras;
      var i := 0;
      while i < |ps|
        invariant 0 <= i <= |ps|
        invariant linhas == compras + NovasCompras(cartao, grupo, data, ps)[..i]
        invariant forall j :: 1 <= j <= i ==>
                    |DescricaoDaParcela(Normalizado(descricao), j, |ps|)| <= LARGURA_DESCRICAO
      {
        if |DescricaoDaParcela(Normalizado(descricao), i + 1, |ps|)| > LARGURA_DESCRICAO {
          return false;
        }
        linhas := linhas + [NovaCompra(cartao, grupo, data, |ps|, ps[i])];
        i := i + 1;
      }
      compras := linhas;
      proximo := grupo + |ps| + 1;
      return true;
    }

    /** The saída and the payment go in together. */
    method InserirPagamento(cartao: int, v: Data, valor: int, pagoEm: Data)
      modifies this
      ensures Foto() == GravarPagamento(old(Foto()), cartao, v, valor, pagoEm)
    {
      var t := Transacao(proximo, true, valor, pagoEm, false);
      transacoes := transacoes + [t];
      pagamentos := pagamentos + [Pagamento(proximo + 1, cartao, v, t.id, valor, pagoEm)];
      proximo := proximo + 2;
    }

    method RemoverUltimoPagamento(cartao: int, v: Data) returns (r: Resultado<int, Erro>)
      modifies this
      ensures (Foto(), r) == RemoverUltimo(old(Foto()), cartao, v)
    {
      var u := MaisRecente(PagamentosEm(pagamentos, cartao, v));
      if u.Nada? {
        return Err(FaturaNaoPaga);
      }
      pagamentos := SemPagamento(pagamentos, u.valor.id);
      transacoes := SemTransacao(transacoes, u.valor.transacao);
      return Ok(u.valor.valor);
    }

    method DeleteCompraGrupo(grupo: int) returns (n: int)
      modifies this
      ensures compras == SemGrupo(old(compras), grupo) && n == |old(compras)| - |compras|
      ensures Foto() == old(Foto()).(compras := compras)
    {
      var antes := |compras|;
      compras := SemGrupo(compras, grupo);
      n := antes - |compras|;
    }

    method Montar(cartao: int, v: Data, hoje: Data) returns (f: Invoice)
      requires cartao in cartoes
      ensures fresh(f) && f.Ver() == FaturaSpec(Foto(), cartao, v, hoje)
    {
      f := MontarFatura(cartoes[cartao].ciclo, v, ComprasDaFatura(compras, cartao, v),
                        Ordenar(PagamentosEm(pagamentos, cartao, v)), hoje);
    }

    // ----- purchases -----

    /** The user is the one logged in. */
    method RegistrarCompra(usuario: string, cartao: int, valor: int, data: Data, totalParcelas: int, descricao: string)
      returns (r: Resultado<int, Erro>)
      requires !EmBranco(usuario)
      modifies this
      ensures (Foto(), r) == RegistrarCompraSpec(old(Foto()), cartao, valor, data, totalParcelas, descricao)
    {
      if cartao !in cartoes {
        return Err(NaoEncontrado);
      }
      var c := cartoes[cartao];
      if !c.ativo {
        return Err(CartaoArquivado);
      }
      var novas := NewCompraCartao(c.ciclo, CompraInput(usuario, valor, Algo(data), totalParcelas, descricao));
      if novas.Err? {
        return Err(CompraInvalida(novas.erro));
      }
      var pagamentosDaPrimeira := PagamentosEm(pagamentos, cartao, novas.valor[0].vencimento);
      if |pagamentosDaPrimeira| > 0 {
        return Err(FechadaParaCompra);
      }
      var grupo := proximo;
      var ok := CreateCompras(cartao, data, novas.valor, descricao);
      if !ok {
        return Err(FalhaAoGravar);
      }
      return Ok(grupo);
    }

    method ExcluirCompra(grupo: int) returns (r: Resultado<int, Erro>)
      modifies this
      ensures (Foto(), r) == ExcluirCompraSpec(old(Foto()), grupo)
    {
      ghost var antes := Foto();
      var pago := GrupoTemPagamento(Foto(), grupo);
      if pago {
        return Err(FechadaParaCompra);
      }
      FilterIsShorter(compras, grupo);
      var n := DeleteCompraGrupo(grupo);
      if n == 0 {
        return Err(NaoEncontrado);
      }
      return Ok(n);
    }

    // ----- invoices -----

    method PagarFatura(cartao: int, competencia: int, valor: int, pagoEm: Data, hoje: Data)
      returns (r: Resultado<Vista, Erro>)
      modifies this
      ensures (Foto(), r) == PagarFaturaSpec(old(Foto()), cartao, competencia, valor, pagoEm, hoje)
    {
      if cartao !in cartoes {
        return Err(NaoEncontrado);
      }
      var v := VencimentoDe(cartoes[cartao].ciclo, competencia);
      r := Pagar(cartao, v, valor, pagoEm, hoje);
    }

    method Pagar(cartao: int, v: Data, valorPedido: int, pagoEm: Data, hoje: Data) returns (r: Resultado<Vista, Erro>)
      requires cartao in cartoes
      modifies this
      ensures (Foto(), r) == PagarNaFatura(old(Foto()), cartao, v, valorPedido, pagoEm, hoje)
    {
      var fatura := Montar(cartao, v, hoje);
      ghost var lida := fatura.Ver();
      if fatura.Quitada() {
        return Err(FaturaJaPaga);
      }
      if fatura.total <= 0 {
        return Err(FaturaVazia);
      }
      var valor := valorPedido;
      if valor <= 0 {
        valor := fatura.Restante();
      }
      if valor <= 0 || valor > MAX_MONEY {
        return Err(TransacaoInvalida);
      }
      InserirPagamento(cartao, v, valor, pagoEm);
      fatura.pago := fatura.pago + valor;
      if fatura.ultimoEm.Nada? || Antes(fatura.ultimoEm.valor, pagoEm) {
        fatura.ultimoEm := Algo(pagoEm);
      }
      fatura.AtualizarStatus(hoje);
      assert fatura.Ver() == ComPagamento(lida, valor, pagoEm, hoje);
      return Ok(fatura.Ver());
    }

    method DesfazerPagamento(cartao: int, competencia: int) returns (r: Resultado<int, Erro>)
      modifies this
      ensures (Foto(), r) == DesfazerPagamentoSpec(old(Foto()), cartao, competencia)
    {
      if cartao !in cartoes {
        return Err(NaoEncontrado);
      }
      var v := VencimentoDe(cartoes[cartao].ciclo, competencia);
      r := RemoverUltimoPagamento(cartao, v);
    }

    // ----- cards -----

    method Create(f: CadastroCartao) returns (r: Resultado<int, Erro>)
      modifies this
      ensures (Foto(), r) == CriarCartaoSpec(old(Foto()), f)
    {
      var ok := NewCartao(f);
      if !ok {
        return Err(CartaoInvalido);
      }
      var id := proximo;
      cartoes := cartoes[id := CartaoSalvo(f.ciclo, f.limite, true)];
      proximo := proximo + 1;
      return Ok(id);
    }

    method Update(cartao: int, f: CadastroCartao, ativo: Opcao<bool>) returns (r: Resultado<int, Erro>)
      modifies this
      ensures (Foto(), r) == AtualizarCartaoSpec(old(Foto()), cartao, f, ativo)
    {
      if cartao !in cartoes {
        return Err(NaoEncontrado);
      }
      var ok := NewCartao(f);
      if !ok {
        return Err(CartaoInvalido);
      }
      var novo := CartaoSalvo(f.ciclo, f.limite, cartoes[cartao].ativo);
      if ativo.Algo? {
        novo := novo.(ativo := ativo.valor);
      }
      cartoes := cartoes[cartao := novo];
      return Ok(cartao);
    }

    method Delete(cartao: int) returns (r: Resultado<int, Erro>)
      modifies this
      ensures (Foto(), r) == ExcluirCartaoSpec(old(Foto()), cartao)
    {
      if cartao !in cartoes {
        return Err(NaoEncontrado);
      }
      if TemCompras(Foto(), cartao) {
        return Err(CartaoComHistorico);
      }
      cartoes := cartoes - {cartao};
      compras := SemCartaoC(compras, cartao);
      pagamentos := SemCartaoP(pagamentos, cartao);
      return Ok(cartao);
    }

    // ----- transactions -----

    method CriarTransacao(saida: bool, valor: int, data: Data) returns (r: Resultado<int, Erro>)
      modifies this
      ensures (Foto(), r) == CriarTransacaoSpec(old(Foto()), saida, valor, data)
    {
      if valor <= 0 || valor > MAX_MONEY {
        return Err(TransacaoInvalida);
      }
      var t := Transacao(proximo, saida, valor, data, false);
      transacoes := transacoes + [t];
      proximo := proximo + 1;
      return Ok(t.id);
    }

    method EditarTransacao(id: int, saida: bool, valor: int, data: Data) returns (r: Resultado<int, Erro>)
      modifies this
      ensures (Foto(), r) == EditarTransacaoSpec(old(Foto()), id, saida, valor, data)
    {
      var t := BuscaTransacao(transacoes, id);
      if t.Nada? {
        return Err(NaoEncontrado);
      }
      if t.valor.parcela && !saida {
        return Err(ParcelaSempreSaida);
      }
      if valor <= 0 || valor > MAX_MONEY {
        return Err(TransacaoInvalida);
      }
      transacoes := ComEdicao(transacoes, id, saida, valor, data);
      return Ok(id);
    }

    method ExcluirTransacao(id: int) returns (r: Resultado<int, Erro>)
      modifies this
      ensures (Foto(), r) == ExcluirTransacaoSpec(old(Foto()), id)
    {
      var t := BuscaTransacao(transacoes, id);
      if t.Nada? {
        return Err(NaoEncontrado);
      }
      if t.valor.parcela {
        return Err(ParcelaGerenciada);
      }
      transacoes := SemTransacao(transacoes, id);
      pagamentos := SemLastro(pagamentos, id);
      return Ok(id);
    }
  }

  method NewCartao(f: CadastroCartao) returns (ok: bool)
    ensures ok <==> CadastroOk(f)
  {
    var n := |Normalizado(f.nome)|;
    if n < 1 || n > 60 || |Normalizado(f.banco)| > 60 {
      return false;
    }
    if f.ciclo.diaFechamento < 1 || f.ciclo.diaFechamento > MAX_DIA_CICLO {
      return false;
    }
    if f.ciclo.diaVencimento < 1 || f.ciclo.diaVencimento > MAX_DIA_CICLO {
      return false;
    }
    return 0 <= f.limite <= MAX_MONEY;
  }

  /** Deleting a group that has no rows leaves the table as it was. */
  lemma FilterIsShorter(s: seq<Compra>, grupo: int)
    ensures |SemGrupo(s, grupo)| <= |s|
    ensures |SemGrupo(s, grupo)| == |s| ==> SemGrupo(s, grupo) == s
  {
    FilterShrinks(s, (c: Compra) => c.grupo != grupo);
  }
}
