/** The card ledger: the tables behind CartaoService and TransacaoService
    (internal/core/services/cartao_service.go, internal/core/services/financas_service.go and the
    repositories under internal/adapters/db/postgres), for one user. Every operation is one atomic
    step; ids come from one counter, so they also stand for created_at. */
module Livro {
  import opened Comum
  import opened Texto
  import opened Centavos
  import opened Calendario
  import opened CicloCartao
  import opened Tabelas
  import opened Fatura

  datatype CartaoSalvo = CartaoSalvo(ciclo: Cartao, limite: int, ativo: bool)

  /** `saida` tells money leaving from money coming in; `parcela` marks an instalment of a plan. */
  datatype Transacao = Transacao(id: int, saida: bool, valor: int, data: Data, parcela: bool)

  datatype Banco = Banco(cartoes: map<int, CartaoSalvo>, compras: seq<Compra>, pagamentos: seq<Pagamento>,
                         transacoes: seq<Transacao>, proximo: int)

  datatype Erro = NaoEncontrado | CartaoInvalido | CartaoComHistorico | CartaoArquivado | FaturaJaPaga | FaturaVazia
                | FaturaNaoPaga | FechadaParaCompra | ParcelaGerenciada | ParcelaSempreSaida | TransacaoInvalida
                | CompraInvalida(e: ErroCompra) | FalhaAoGravar

  // ----- queries -----

  function ComprasDaFatura(s: seq<Compra>, cartao: int, v: Data): seq<Compra> {
    Filtrar(s, (c: Compra) => c.cartao == cartao && c.vencimento == v)
  }

  /** The payments of an invoice in the order they were recorded. */
  function PagamentosEm(s: seq<Pagamento>, cartao: int, v: Data): seq<Pagamento> {
    Filtrar(s, (p: Pagamento) => p.cartao == cartao && p.vencimento == v)
  }

  function Inserir(s: seq<Pagamento>, p: Pagamento): seq<Pagamento> {
    if s == [] || !Antes(p.pagoEm, s[|s| - 1].pagoEm) then s + [p]
    else Inserir(s[..|s| - 1], p) + [s[|s| - 1]]
  }

  /** ORDER BY pago_em, created_at */
  function Ordenar(s: seq<Pagamento>): seq<Pagamento> {
    if s == [] then [] else Inserir(Ordenar(s[..|s| - 1]), s[|s| - 1])
  }

  /** ORDER BY pago_em DESC, created_at DESC LIMIT 1 */
  function MaisRecente(s: seq<Pagamento>): Opcao<Pagamento> {
    if s == [] then Nada
    else
      var r, p := MaisRecente(s[..|s| - 1]), s[|s| - 1];
      if r.Nada? || !Antes(p.pagoEm, r.valor.pagoEm) then Algo(p) else r
  }

  predicate GrupoTemPagamento(b: Banco, grupo: int) {
    exists c, p :: c in b.compras && p in b.pagamentos && c.grupo == grupo
                   && p.cartao == c.cartao && p.vencimento == c.vencimento
  }

  predicate TemCompras(b: Banco, cartao: int) {
    exists c :: c in b.compras && c.cartao == cartao
  }

  function Assinado(t: Transacao): int {
    if t.saida then -t.valor else t.valor
  }

  /** SaldoAte: everything dated before `ate`. */
  function SaldoAte(s: seq<Transacao>, ate: Data): int {
    if s == [] then 0
    else SaldoAte(s[..|s| - 1], ate) + if Antes(s[|s| - 1].data, ate) then Assinado(s[|s| - 1]) else 0
  }

  function BuscaTransacao(s: seq<Transacao>, id: int): Opcao<Transacao> {
    if s == [] then Nada
    else if s[|s| - 1].id == id then Algo(s[|s| - 1])
    else BuscaTransacao(s[..|s| - 1], id)
  }

  // ----- deletions and their cascades -----

  function SemTransacao(s: seq<Transacao>, id: int): seq<Transacao> {
    Filtrar(s, (t: Transacao) => t.id != id)
  }

  function SemPagamento(s: seq<Pagamento>, id: int): seq<Pagamento> {
    Filtrar(s, (p: Pagamento) => p.id != id)
  }

  /** ON DELETE CASCADE from transacoes. */
  function SemLastro(s: seq<Pagamento>, transacao: int): seq<Pagamento> {
    Filtrar(s, (p: Pagamento) => p.transacao != transacao)
  }

  function SemGrupo(s: seq<Compra>, grupo: int): seq<Compra> {
    Filtrar(s, (c: Compra) => c.grupo != grupo)
  }

  /** ON DELETE CASCADE from cartoes. */
  function SemCartaoC(s: seq<Compra>, cartao: int): seq<Compra> {
    Filtrar(s, (c: Compra) => c.cartao != cartao)
  }

  function SemCartaoP(s: seq<Pagamento>, cartao: int): seq<Pagamento> {
    Filtrar(s, (p: Pagamento) => p.cartao != cartao)
  }

  // ----- purchases -----

  function NovaCompra(cartao: int, grupo: int, data: Data, total: int, p: Parcela): Compra {
    Compra(grupo + p.numero, cartao, grupo, p.valor, data, p.numero, total, p.vencimento)
  }

  /** The rows CreateCompras inserts, the group first drawn from the counter. */
  function NovasCompras(cartao: int, grupo: int, data: Data, ps: seq<Parcela>): seq<Compra> {
    seq(|ps|, i requires 0 <= i < |ps| => NovaCompra(cartao, grupo, data, |ps|, ps[i]))
  }

  function GravarCompras(b: Banco, cartao: int, data: Data, ps: seq<Parcela>): Banco {
    b.(compras := b.compras + NovasCompras(cartao, b.proximo, data, ps), proximo := b.proximo + |ps| + 1)
  }

  function LancarCompra(b: Banco, cartao: int, data: Data, ps: seq<Parcela>): (Banco, Resultado<int, Erro>)
    requires ps != []
  {
    if PagamentosEm(b.pagamentos, cartao, ps[0].vencimento) != [] then (b, Err(FechadaParaCompra))
    else (GravarCompras(b, cartao, data, ps), Ok(b.proximo))
  }

  function RegistrarCompraSpec(b: Banco, cartao: int, valor: int, data: Data, totalParcelas: int, descricao: string)
    : (Banco, Resultado<int, Erro>)
  {
    if cartao !in b.cartoes then (b, Err(NaoEncontrado))
    else if !b.cartoes[cartao].ativo then (b, Err(CartaoArquivado))
    else
      var r := NewCompraCartaoSpec(b.cartoes[cartao].ciclo, valor, data, totalParcelas);
      if r.Err? then (b, Err(CompraInvalida(r.erro)))
      else if !DescricaoOk(descricao) then (b, Err(CompraInvalida(DescricaoLonga)))
      else if LancarCompra(b, cartao, data, r.valor).1.Ok? && !CabeNaColuna(descricao, |r.valor|)
      then (b, Err(FalhaAoGravar))
      else LancarCompra(b, cartao, data, r.valor)
  }

  function ExcluirCompraSpec(b: Banco, grupo: int): (Banco, Resultado<int, Erro>) {
    if GrupoTemPagamento(b, grupo) then (b, Err(FechadaParaCompra))
    else
      var restam := SemGrupo(b.compras, grupo);
      if |restam| == |b.compras| then (b, Err(NaoEncontrado))
      else (b.(compras := restam), Ok(|b.compras| - |restam|))
  }

  // ----- invoices -----

  function FaturaSpec(b: Banco, cartao: int, v: Data, hoje: Data): Vista
    requires cartao in b.cartoes
  {
    MontarFaturaSpec(b.cartoes[cartao].ciclo, v, ComprasDaFatura(b.compras, cartao, v),
                     Ordenar(PagamentosEm(b.pagamentos, cartao, v)), hoje)
  }

  function GravarPagamento(b: Banco, cartao: int, v: Data, valor: int, pagoEm: Data): Banco {
    b.(transacoes := b.transacoes + [Transacao(b.proximo, true, valor, pagoEm, false)],
       pagamentos := b.pagamentos + [Pagamento(b.proximo + 1, cartao, v, b.proximo, valor, pagoEm)],
       proximo := b.proximo + 2)
  }

  /** What a payment without a value pays. */
  function ValorAPagar(f: Vista, valor: int): int {
    if valor <= 0 then RestanteDe(f.total, f.pago) else valor
  }

  /** The invoice PagarFatura returns: the one it read, with the new payment added to it. */
  function ComPagamento(f: Vista, valor: int, pagoEm: Data, hoje: Data): Vista {
    f.(pago := f.pago + valor,
       ultimoEm := if f.ultimoEm.Nada? || Antes(f.ultimoEm.valor, pagoEm) then Algo(pagoEm) else f.ultimoEm,
       status := StatusDe(f.total, f.pago + valor, f.fim, hoje))
  }

  function PagarNaFatura(b: Banco, cartao: int, v: Data, valor: int, pagoEm: Data, hoje: Data)
    : (Banco, Resultado<Vista, Erro>)
    requires cartao in b.cartoes
  {
    var f := FaturaSpec(b, cartao, v, hoje);
    var aPagar := ValorAPagar(f, valor);
    if QuitadaCom(f.total, f.pago) then (b, Err(FaturaJaPaga))
    else if f.total <= 0 then (b, Err(FaturaVazia))
    else if aPagar <= 0 || aPagar > MAX_MONEY then (b, Err(TransacaoInvalida))
    else (GravarPagamento(b, cartao, v, aPagar, pagoEm), Ok(ComPagamento(f, aPagar, pagoEm, hoje)))
  }

  function PagarFaturaSpec(b: Banco, cartao: int, competencia: int, valor: int, pagoEm: Data, hoje: Data)
    : (Banco, Resultado<Vista, Erro>)
  {
    if cartao !in b.cartoes then (b, Err(NaoEncontrado))
    else PagarNaFatura(b, cartao, VencimentoDe(b.cartoes[cartao].ciclo, competencia), valor, pagoEm, hoje)
  }

  function RemoverUltimo(b: Banco, cartao: int, v: Data): (Banco, Resultado<int, Erro>) {
    var u := MaisRecente(PagamentosEm(b.pagamentos, cartao, v));
    if u.Nada? then (b, Err(FaturaNaoPaga))
    else (b.(pagamentos := SemPagamento(b.pagamentos, u.valor.id),
             transacoes := SemTransacao(b.transacoes, u.valor.transacao)), Ok(u.valor.valor))
  }

  function DesfazerPagamentoSpec(b: Banco, cartao: int, competencia: int): (Banco, Resultado<int, Erro>) {
    if cartao !in b.cartoes then (b, Err(NaoEncontrado))
    else RemoverUltimo(b, cartao, VencimentoDe(b.cartoes[cartao].ciclo, competencia))
  }

  // ----- cards -----

  datatype CadastroCartao = CadastroCartao(nome: string, banco: string, ciclo: Cartao, limite: int)

  /** What NewCartao accepts. */
  predicate CadastroOk(f: CadastroCartao) {
    && 1 <= |Normalizado(f.nome)| <= 60 && |Normalizado(f.banco)| <= 60
    && CartaoValido(f.ciclo) && 0 <= f.limite <= MAX_MONEY
  }

  function CriarCartaoSpec(b: Banco, f: CadastroCartao): (Banco, Resultado<int, Erro>) {
    if !CadastroOk(f) then (b, Err(CartaoInvalido))
    else (b.(cartoes := b.cartoes[b.proximo := CartaoSalvo(f.ciclo, f.limite, true)], proximo := b.proximo + 1),
          Ok(b.proximo))
  }

  /** `ativo` left out keeps the card active or archived as it was. */
  function AtualizarCartaoSpec(b: Banco, cartao: int, f: CadastroCartao, ativo: Opcao<bool>)
    : (Banco, Resultado<int, Erro>)
  {
    if cartao !in b.cartoes then (b, Err(NaoEncontrado))
    else if !CadastroOk(f) then (b, Err(CartaoInvalido))
    else
      var a := if ativo.Algo? then ativo.valor else b.cartoes[cartao].ativo;
      (b.(cartoes := b.cartoes[cartao := CartaoSalvo(f.ciclo, f.limite, a)]), Ok(cartao))
  }

  function ExcluirCartaoSpec(b: Banco, cartao: int): (Banco, Resultado<int, Erro>) {
    if cartao !in b.cartoes then (b, Err(NaoEncontrado))
    else if TemCompras(b, cartao) then (b, Err(CartaoComHistorico))
    else (b.(cartoes := b.cartoes - {cartao}, compras := SemCartaoC(b.compras, cartao),
             pagamentos := SemCartaoP(b.pagamentos, cartao)), Ok(cartao))
  }

  // ----- transactions -----

  predicate ValorOk(valor: int) {
    0 < valor <= MAX_MONEY
  }

  function CriarTransacaoSpec(b: Banco, saida: bool, valor: int, data: Data): (Banco, Resultado<int, Erro>) {
    if !ValorOk(valor) then (b, Err(TransacaoInvalida))
    else (b.(transacoes := b.transacoes + [Transacao(b.proximo, saida, valor, data, false)], proximo := b.proximo + 1),
          Ok(b.proximo))
  }

  function Editada(t: Transacao, id: int, saida: bool, valor: int, data: Data): Transacao {
    if t.id == id then t.(saida := saida, valor := valor, data := data) else t
  }

  function ComEdicao(s: seq<Transacao>, id: int, saida: bool, valor: int, data: Data): seq<Transacao> {
    seq(|s|, i requires 0 <= i < |s| => Editada(s[i], id, saida, valor, data))
  }

  function EditarTransacaoSpec(b: Banco, id: int, saida: bool, valor: int, data: Data): (Banco, Resultado<int, Erro>) {
    var t := BuscaTransacao(b.transacoes, id);
    if t.Nada? then (b, Err(NaoEncontrado))
    else if t.valor.parcela && !saida then (b, Err(ParcelaSempreSaida))
    else if !ValorOk(valor) then (b, Err(TransacaoInvalida))
    else (b.(transacoes := ComEdicao(b.transacoes, id, saida, valor, data)), Ok(id))
  }

  function ExcluirTransacaoSpec(b: Banco, id: int): (Banco, Resultado<int, Erro>) {
    var t := BuscaTransacao(b.transacoes, id);
    if t.Nada? then (b, Err(NaoEncontrado))
    else if t.valor.parcela then (b, Err(ParcelaGerenciada))
    else (b.(transacoes := SemTransacao(b.transacoes, id), pagamentos := SemLastro(b.pagamentos, id)), Ok(id))
  }
}
