/** The aggregate queries behind the invoice list and the home screen, and the summary built on them
    (internal/adapters/db/postgres/cartao_repository.go, internal/core/services/cartao_service.go). */
module ResumoFaturas {
  import opened Comum
  import opened Centavos
  import opened Calendario
  import opened CicloCartao
  import opened Tabelas
  import opened Fatura
  import opened Livro
  import opened LivroInvariante
  import opened LivroCompras
  import opened LivroPagamentos

  // ----- payments in payment order -----

  predicate EmOrdemDePagamento(s: seq<Pagamento>) {
    forall i, j :: 0 <= i < j < |s| ==> !Antes(s[j].pagoEm, s[i].pagoEm)
  }

  lemma {:induction false} InsertedRows(s: seq<Pagamento>, p: Pagamento)
    ensures multiset(Inserir(s, p)) == multiset(s) + multiset{p}
    ensures forall q :: q in Inserir(s, p) ==> q in s || q == p
  {
    if s != [] && Antes(p.pagoEm, s[|s| - 1].pagoEm) {
      InsertedRows(s[..|s| - 1], p);
      assert s == s[..|s| - 1] + [s[|s| - 1]];
    }
  }

  lemma {:induction false} InsertKeepsOrder(s: seq<Pagamento>, p: Pagamento)
    requires EmOrdemDePagamento(s)
    ensures EmOrdemDePagamento(Inserir(s, p))
  {
    if s != [] && Antes(p.pagoEm, s[|s| - 1].pagoEm) {
      var r, u := s[..|s| - 1], s[|s| - 1];
      InsertKeepsOrder(r, p);
      InsertedRows(r, p);
      LatestAtEnd(Inserir(r, p), u);
    }
  }

  lemma LatestAtEnd(s: seq<Pagamento>, u: Pagamento)
    requires EmOrdemDePagamento(s) && forall q :: q in s ==> !Antes(u.pagoEm, q.pagoEm)
    ensures EmOrdemDePagamento(s + [u])
  {
    assert forall i :: 0 <= i < |s| ==> s[i] in s;
  }

  lemma {:induction false} InsertAdds(s: seq<Pagamento>, p: Pagamento)
    ensures |Inserir(s, p)| == |s| + 1 && SomaPagamentos(Inserir(s, p)) == SomaPagamentos(s) + p.valor
  {
    if s == [] || !Antes(p.pagoEm, s[|s| - 1].pagoEm) {
      assert (s + [p])[..|s|] == s;
    } else {
      InsertAdds(s[..|s| - 1], p);
      var t := Inserir(s[..|s| - 1], p);
      assert (t + [s[|s| - 1]])[..|t|] == t;
    }
  }

  /** Payments in payment order: the same rows, ordered, with the same sum. */
  lemma {:induction false} SortedPayments(s: seq<Pagamento>)
    ensures EmOrdemDePagamento(Ordenar(s))
    ensures |Ordenar(s)| == |s| && SomaPagamentos(Ordenar(s)) == SomaPagamentos(s)
  {
    if s != [] {
      var r, p := s[..|s| - 1], s[|s| - 1];
      SortedPayments(r);
      InsertKeepsOrder(Ordenar(r), p);
      InsertAdds(Ordenar(r), p);
    }
  }

  lemma {:induction false} SortedRows(s: seq<Pagamento>)
    ensures multiset(Ordenar(s)) == multiset(s)
  {
    if s != [] {
      var r, p := s[..|s| - 1], s[|s| - 1];
      SortedRows(r);
      InsertedRows(Ordenar(r), p);
      LastRowCounts(s);
    }
  }

  lemma LastRowCounts(s: seq<Pagamento>)
    requires s != []
    ensures multiset(s) == multiset(s[..|s| - 1]) + multiset{s[|s| - 1]}
  {
    assert s == s[..|s| - 1] + [s[|s| - 1]];
  }

  /** In payment order the loop of MontarFatura ends on the last row. */
  lemma {:induction false} LastOfSorted(s: seq<Pagamento>)
    requires EmOrdemDePagamento(s) && s != []
    ensures UltimoDe(s) == Ultimo(Algo(s[|s| - 1].pagoEm), s[|s| - 1].valor)
  {
    if |s| > 1 {
      LastOfSorted(s[..|s| - 1]);
    }
  }

  /** Sorting changes neither what the loop tracks nor what undo would take. */
  lemma {:induction false} LastIsLatest(s: seq<Pagamento>)
    ensures var m := MaisRecente(s);
            UltimoDe(Ordenar(s)) == if m.Nada? then Ultimo(Nada, 0) else Ultimo(Algo(m.valor.pagoEm), m.valor.valor)
  {
    if s != [] {
      var r, p := s[..|s| - 1], s[|s| - 1];
      LastIsLatest(r);
      LastAfterInsert(Ordenar(r), p);
      SortedPayments(r);
    }
  }

  lemma LastAfterInsert(s: seq<Pagamento>, p: Pagamento)
    ensures EmOrdemDePagamento(s) ==>
              UltimoDe(Inserir(s, p)) == if NaoAntes(p.pagoEm, UltimoDe(s).em) then Ultimo(Algo(p.pagoEm), p.valor)
                                         else UltimoDe(s)
  {
    if EmOrdemDePagamento(s) {
      InsertKeepsOrder(s, p);
      InsertAdds(s, p);
      LastOfSorted(Inserir(s, p));
      if s != [] {
        LastOfSorted(s);
      }
    }
  }

  // ----- what PagarFatura returns and what it leaves -----

  lemma OneMorePayment(s: seq<Pagamento>, p: Pagamento)
    ensures SomaPagamentos(Ordenar(s + [p])) == SomaPagamentos(Ordenar(s)) + p.valor
    ensures var u := UltimoDe(Ordenar(s));
            UltimoDe(Ordenar(s + [p])) == if NaoAntes(p.pagoEm, u.em) then Ultimo(Algo(p.pagoEm), p.valor) else u
  {
    assert (s + [p])[..|s|] == s;
    SortedPayments(s);
    InsertAdds(Ordenar(s), p);
    LastAfterInsert(Ordenar(s), p);
  }

  /** The invoice of v as it reads before (f) and after (g) one more payment. */
  predicate UmPagamentoAMais(f: Vista, g: Vista, valor: int, pagoEm: Data) {
    && g.vencimento == f.vencimento && g.fim == f.fim && g.inicio == f.inicio
    && g.total == f.total && g.pago == f.pago + valor
    && Ultimo(g.ultimoEm, g.ultimoValor)
       == if NaoAntes(pagoEm, f.ultimoEm) then Ultimo(Algo(pagoEm), valor) else Ultimo(f.ultimoEm, f.ultimoValor)
  }

  lemma PaidAfterPayment(b: Banco, cartao: int, v: Data, valor: int, pagoEm: Data, hoje: Data)
    requires cartao in b.cartoes
    ensures UmPagamentoAMais(FaturaSpec(b, cartao, v, hoje),
                             FaturaSpec(GravarPagamento(b, cartao, v, valor, pagoEm), cartao, v, hoje), valor, pagoEm)
  {
    PaymentsOfInvoiceGrow(b, cartao, v, valor, pagoEm);
    OneMorePayment(PagamentosEm(b.pagamentos, cartao, v),
                   Pagamento(b.proximo + 1, cartao, v, b.proximo, valor, pagoEm));
  }

  /** Reading the invoice again after a payment gives what PagarFatura returned, except that the
      value of the last payment is the old one unless the new payment is dated before it or has the
      same value. */
  lemma ReturnedInvoiceIsCurrentIff(b: Banco, cartao: int, v: Data, valor: int, pagoEm: Data, hoje: Data)
    requires cartao in b.cartoes && PagarNaFatura(b, cartao, v, valor, pagoEm, hoje).1.Ok?
    ensures var (c, r) := PagarNaFatura(b, cartao, v, valor, pagoEm, hoje);
            var f, g := FaturaSpec(b, cartao, v, hoje), FaturaSpec(c, cartao, v, hoje);
            && r.valor.(ultimoValor := g.ultimoValor) == g
            && (r.valor == g <==> !NaoAntes(pagoEm, f.ultimoEm) || ValorAPagar(f, valor) == f.ultimoValor)
  {
    var f := FaturaSpec(b, cartao, v, hoje);
    var g := FaturaSpec(PagarNaFatura(b, cartao, v, valor, pagoEm, hoje).0, cartao, v, hoje);
    PaidAfterPayment(b, cartao, v, ValorAPagar(f, valor), pagoEm, hoje);
    assert g.status == StatusDe(g.total, g.pago, g.fim, hoje);
    ReturnedAgainstCurrent(f, g, ValorAPagar(f, valor), pagoEm, hoje);
  }

  lemma ReturnedAgainstCurrent(f: Vista, g: Vista, valor: int, pagoEm: Data, hoje: Data)
    requires UmPagamentoAMais(f, g, valor, pagoEm) && g.status == StatusDe(g.total, g.pago, g.fim, hoje)
    ensures var r := ComPagamento(f, valor, pagoEm, hoje);
            && r.(ultimoValor := g.ultimoValor) == g
            && (r == g <==> !NaoAntes(pagoEm, f.ultimoEm) || valor == f.ultimoValor)
  {
  }

  /** Paying without a value settles the invoice, unless it has no purchases, its payments cover them
      already or what is left exceeds the largest amount. */
  lemma PayingWithoutValueSettles(b: Banco, cartao: int, v: Data, valor: int, pagoEm: Data, hoje: Data)
    requires cartao in b.cartoes && valor <= 0
    ensures var f := FaturaSpec(b, cartao, v, hoje);
            var (c, r) := PagarNaFatura(b, cartao, v, valor, pagoEm, hoje);
            && (r.Ok? <==> f.total > 0 && 0 < f.total - f.pago <= MAX_MONEY)
            && (r.Ok? ==> r.valor.status == Paga && FaturaSpec(c, cartao, v, hoje).status == Paga
                          && r.valor.pago == f.total == FaturaSpec(c, cartao, v, hoje).pago)
  {
    var f := FaturaSpec(b, cartao, v, hoje);
    if PagarNaFatura(b, cartao, v, valor, pagoEm, hoje).1.Ok? {
      ReturnedInvoiceIsCurrentIff(b, cartao, v, valor, pagoEm, hoje);
    }
  }

  // ----- the grouped query -----

  /** GROUP BY fatura_vencimento, summing as the rows come. */
  function Totais(s: seq<Compra>, cartao: int): map<Data, int> {
    if s == [] then map[]
    else
      var m, c := Totais(s[..|s| - 1], cartao), s[|s| - 1];
      if c.cartao != cartao then m
      else m[c.vencimento := c.valor + if c.vencimento in m then m[c.vencimento] else 0]
  }

  lemma OneMoreRow(r: seq<Compra>, c: Compra, cartao: int, v: Data)
    ensures TemFatura(r + [c], cartao, v) <==> TemFatura(r, cartao, v) || NaFatura(c, cartao, v)
  {
    var s := r + [c];
    if TemFatura(r, cartao, v) {
      var d :| d in r && NaFatura(d, cartao, v);
      assert d in s;
    } else if TemFatura(s, cartao, v) {
      var d :| d in s && NaFatura(d, cartao, v);
      assert d in r || d == c;
    }
    assert c in s;
  }

  lemma {:induction false} GroupTotals(s: seq<Compra>, cartao: int, v: Data)
    ensures v in Totais(s, cartao) <==> TemFatura(s, cartao, v)
    ensures SomaCompras(ComprasDaFatura(s, cartao, v)) == if v in Totais(s, cartao) then Totais(s, cartao)[v] else 0
  {
    if s != [] {
      var r, c := s[..|s| - 1], s[|s| - 1];
      GroupTotals(r, cartao, v);
      assert s == r + [c];
      var f := ComprasDaFatura(r, cartao, v);
      assert (f + [c])[..|f|] == f && f + [] == f;
      OneMoreRow(r, c, cartao, v);
    }
  }

  /** The due dates with purchases, latest first, each once. */
  function InserirData(ds: seq<Data>, d: Data): seq<Data> {
    if ds == [] then [d]
    else if ds[0] == d then ds
    else if Antes(ds[0], d) then [d] + ds
    else [ds[0]] + InserirData(ds[1..], d)
  }

  function Vencimentos(s: seq<Compra>, cartao: int): seq<Data> {
    if s == [] then []
    else
      var ds, c := Vencimentos(s[..|s| - 1], cartao), s[|s| - 1];
      if c.cartao != cartao then ds else InserirData(ds, c.vencimento)
  }

  predicate Decrescente(ds: seq<Data>) {
    forall i, j :: 0 <= i < j < |ds| ==> Antes(ds[j], ds[i])
  }

  lemma {:induction false} InsertedDates(ds: seq<Data>, d: Data)
    requires Decrescente(ds)
    ensures Decrescente(InserirData(ds, d))
    ensures forall x :: x in InserirData(ds, d) <==> x in ds || x == d
  {
    if ds != [] && ds[0] != d && !Antes(ds[0], d) {
      InsertedDates(ds[1..], d);
      var r := InserirData(ds[1..], d);
      forall i | 0 <= i < |r|
        ensures Antes(r[i], ds[0])
      {
        assert r[i] in r;
      }
      assert ds == [ds[0]] + ds[1..];
    }
  }

  lemma {:induction false} ListedDueDates(s: seq<Compra>, cartao: int)
    ensures Decrescente(Vencimentos(s, cartao))
    ensures forall v :: v in Vencimentos(s, cartao) <==> TemFatura(s, cartao, v)
  {
    if s != [] {
      var r, c := s[..|s| - 1], s[|s| - 1];
      ListedDueDates(r, cartao);
      InsertedDates(Vencimentos(r, cartao), c.vencimento);
      assert s == r + [c];
      forall v
        ensures TemFatura(s, cartao, v) <==> TemFatura(r, cartao, v) || NaFatura(c, cartao, v)
      {
        OneMoreRow(r, c, cartao, v);
      }
    }
  }

  /** max(pago_em) */
  function MaxPagoEm(s: seq<Pagamento>): Opcao<Data> {
    if s == [] then Nada
    else
      var m, p := MaxPagoEm(s[..|s| - 1]), s[|s| - 1];
      if m.Nada? || Antes(m.valor, p.pagoEm) then Algo(p.pagoEm) else m
  }

  /** (array_agg(valor_centavos ORDER BY pago_em DESC, created_at DESC))[1], and 0 without rows. */
  function UltimoValor(s: seq<Pagamento>): int {
    var o := Ordenar(s);
    if o == [] then 0 else o[|o| - 1].valor
  }

  function LinhaDoResumo(b: Banco, cartao: int, v: Data): Resumo {
    var ps, m := PagamentosEm(b.pagamentos, cartao, v), Totais(b.compras, cartao);
    Resumo(v, if v in m then m[v] else 0, SomaPagamentos(ps), Ultimo(MaxPagoEm(ps), UltimoValor(ps)))
  }

  const LIMITE_RESUMO := 120

  function ResumoDasFaturas(b: Banco, cartao: int): seq<Resumo> {
    var ds := Vencimentos(b.compras, cartao);
    seq(Min(|ds|, LIMITE_RESUMO), i requires 0 <= i < Min(|ds|, LIMITE_RESUMO) => LinhaDoResumo(b, cartao, ds[i]))
  }

  lemma {:induction false} MaxIsLastDate(s: seq<Pagamento>)
    ensures MaxPagoEm(s) == UltimoDe(s).em
  {
    if s != [] {
      MaxIsLastDate(s[..|s| - 1]);
    }
  }

  lemma AggregatedLast(s: seq<Pagamento>)
    ensures Ultimo(MaxPagoEm(s), UltimoValor(s)) == UltimoDe(Ordenar(s))
  {
    SortedPayments(s);
    MaxIsLastDate(s);
    LatestTracked(s);
    LastIsLatest(s);
    if s != [] {
      LastOfSorted(Ordenar(s));
    }
  }

  lemma {:induction false} LatestTracked(s: seq<Pagamento>)
    ensures var m := MaisRecente(s);
            UltimoDe(s) == if m.Nada? then Ultimo(Nada, 0) else Ultimo(Algo(m.valor.pagoEm), m.valor.valor)
  {
    if s != [] {
      LatestTracked(s[..|s| - 1]);
    }
  }

  /** An invoice assembled from the grouped query is the one assembled from its rows. */
  lemma SummaryRowIsTheInvoice(b: Banco, cartao: int, v: Data, hoje: Data)
    requires cartao in b.cartoes
    ensures MontarDoResumoSpec(b.cartoes[cartao].ciclo, LinhaDoResumo(b, cartao, v), hoje)
         == FaturaSpec(b, cartao, v, hoje)
  {
    GroupTotals(b.compras, cartao, v);
    SortedPayments(PagamentosEm(b.pagamentos, cartao, v));
    AggregatedLast(PagamentosEm(b.pagamentos, cartao, v));
  }

  // ----- what is owed -----

  function RestanteDaLinha(r: Resumo): int {
    RestanteDe(r.total, r.pago)
  }

  function SomaRestantes(s: seq<Resumo>): int {
    if s == [] then 0 else RestanteDaLinha(s[0]) + SomaRestantes(s[1..])
  }

  /** The subquery of TotalNaoPago over the groups ds: each group's total less its payments, never
      below zero. */
  function SomaGrupos(b: Banco, cartao: int, ds: seq<Data>): int {
    if ds == [] then 0
    else FaltaNoGrupo(b, cartao, ds[0]) + SomaGrupos(b, cartao, ds[1..])
  }

  function FaltaNoGrupo(b: Banco, cartao: int, v: Data): nat {
    var falta := SomaCompras(ComprasDaFatura(b.compras, cartao, v))
                 - SomaPagamentos(PagamentosEm(b.pagamentos, cartao, v));
    if falta > 0 then falta else 0
  }

  function TotalNaoPago(b: Banco, cartao: int): int {
    SomaGrupos(b, cartao, Vencimentos(b.compras, cartao))
  }

  lemma {:induction false} GroupsAreRows(b: Banco, cartao: int, ds: seq<Data>, rs: seq<Resumo>)
    requires |ds| == |rs| && forall i :: 0 <= i < |ds| ==> rs[i] == LinhaDoResumo(b, cartao, ds[i])
    ensures SomaGrupos(b, cartao, ds) == SomaRestantes(rs)
  {
    if ds != [] {
      GroupTotals(b.compras, cartao, ds[0]);
      GroupsAreRows(b, cartao, ds[1..], rs[1..]);
    }
  }

  /** TotalNaoPago is the sum of what the listed invoices still owe and of what those beyond the list
      do: with 120 invoices at most, the listed ones alone. */
  lemma UnpaidIsSumOfRemainders(b: Banco, cartao: int)
    ensures TotalNaoPago(b, cartao)
            == SomaRestantes(ResumoDasFaturas(b, cartao)) + SomaGrupos(b, cartao, ForaDaLista(b, cartao))
    ensures CabeNaLista(b, cartao) ==> TotalNaoPago(b, cartao) == SomaRestantes(ResumoDasFaturas(b, cartao))
  {
    var ds := Vencimentos(b.compras, cartao);
    var k := Min(|ds|, LIMITE_RESUMO);
    GroupsSplit(b, cartao, ds[..k], ds[k..]);
    assert ds == ds[..k] + ds[k..];
    GroupsAreRows(b, cartao, ds[..k], ResumoDasFaturas(b, cartao));
  }

  // ----- the card's summary -----

  predicate Devida(r: Resumo) {
    r.total > r.pago && r.total > 0
  }

  /** The loop from the oldest row: the last unsettled row of the list. */
  function APagarSpec(rs: seq<Resumo>): Opcao<Resumo> {
    if rs == [] then Nada
    else if Devida(rs[|rs| - 1]) then Algo(rs[|rs| - 1])
    else APagarSpec(rs[..|rs| - 1])
  }

  function Encontrar(rs: seq<Resumo>, v: Data): Resumo {
    if rs == [] then Resumo(v, 0, 0, Ultimo(Nada, 0))
    else if rs[0].vencimento == v then rs[0]
    else Encontrar(rs[1..], v)
  }

  datatype ResumoCartao = ResumoCartao(aPagar: Opcao<Vista>, emAberto: Opcao<Vista>, limiteDisponivel: int,
                                       melhorDia: Data)

  function CalcularLimiteDisponivel(limite: int, comprometido: int): int {
    if limite <= 0 then 0 else if limite - comprometido > 0 then limite - comprometido else 0
  }

  function EmAbertoSpec(rs: seq<Resumo>, aPagar: Opcao<Resumo>, v: Data): Opcao<Resumo> {
    if aPagar.Nada? || aPagar.valor.vencimento != v then Algo(Encontrar(rs, v)) else Nada
  }

  function Montada(c: Cartao, r: Opcao<Resumo>, hoje: Data): Opcao<Vista> {
    if r.Nada? then Nada else Algo(MontarDoResumoSpec(c, r.valor, hoje))
  }

  function ResumoSpec(b: Banco, cartao: int, hoje: Data): ResumoCartao
    requires cartao in b.cartoes
  {
    var c, rs := b.cartoes[cartao].ciclo, ResumoDasFaturas(b, cartao);
    var aPagar := APagarSpec(rs);
    ResumoCartao(Montada(c, aPagar, hoje), Montada(c, EmAbertoSpec(rs, aPagar, FaturaDaCompra(c, hoje)), hoje),
                 CalcularLimiteDisponivel(b.cartoes[cartao].limite, TotalNaoPago(b, cartao)),
                 MelhorDiaCompra(c, hoje))
  }

  /** CartaoService.resumo */
  method MontarResumo(b: Banco, cartao: int, hoje: Data) returns (r: ResumoCartao)
    requires cartao in b.cartoes
    ensures r == ResumoSpec(b, cartao, hoje)
  {
    var c := b.cartoes[cartao].ciclo;
    var comprometido := TotalNaoPago(b, cartao);
    var faturas := ResumoDasFaturas(b, cartao);
    var aPagar := BuscarAPagar(faturas);
    var vistaAPagar := Nada;
    if aPagar.Algo? {
      var f := MontarDoResumo(c, aPagar.valor, hoje);
      vistaAPagar := Algo(f.Ver());
    }
    var vencAberta := FaturaDaCompra(c, hoje);
    var vistaAberta := Nada;
    if aPagar.Nada? || aPagar.valor.vencimento != vencAberta {
      var aberta := BuscarAberta(faturas, vencAberta);
      var f := MontarDoResumo(c, aberta, hoje);
      vistaAberta := Algo(f.Ver());
    }
    r := ResumoCartao(vistaAPagar, vistaAberta,
                      CalcularLimiteDisponivel(b.cartoes[cartao].limite, comprometido), MelhorDiaCompra(c, hoje));
  }

  method BuscarAPagar(faturas: seq<Resumo>) returns (r: Opcao<Resumo>)
    ensures r == APagarSpec(faturas)
  {
    var i := |faturas| - 1;
    assert faturas[..|faturas|] == faturas;
    while i >= 0
      invariant -1 <= i < |faturas|
      invariant APagarSpec(faturas[..i + 1]) == APagarSpec(faturas)
    {
      if faturas[i].total > faturas[i].pago && faturas[i].total > 0 {
        return Algo(faturas[i]);
      }
      assert faturas[..i + 1][..i] == faturas[..i];
      i := i - 1;
    }
    return Nada;
  }

  method BuscarAberta(faturas: seq<Resumo>, v: Data) returns (aberta: Resumo)
    ensures aberta == Encontrar(faturas, v)
  {
    aberta := Resumo(v, 0, 0, Ultimo(Nada, 0));
    var i := 0;
    while i < |faturas|
      invariant 0 <= i <= |faturas|
      invariant Encontrar(faturas[i..], v) == Encontrar(faturas, v)
    {
      if faturas[i].vencimento == v {
        return faturas[i];
      }
      assert faturas[i..][1..] == faturas[i + 1..];
      i := i + 1;
    }
  }

  // ----- what the summary says -----

  lemma {:induction false} NothingOwedIff(rs: seq<Resumo>)
    ensures SomaRestantes(rs) >= 0
    ensures SomaRestantes(rs) == 0 <==> forall i :: 0 <= i < |rs| ==> RestanteDaLinha(rs[i]) == 0
  {
    if rs != [] {
      NothingOwedIff(rs[1..]);
      assert forall i :: 0 < i < |rs| ==> rs[i] == rs[1..][i - 1];
      assert forall i :: 0 <= i < |rs| - 1 ==> rs[1..][i] == rs[i + 1];
    }
  }

  lemma {:induction false} OneOfTheSum(rs: seq<Resumo>, i: nat)
    requires i < |rs|
    ensures RestanteDaLinha(rs[i]) <= SomaRestantes(rs)
  {
    NothingOwedIff(rs[1..]);
    if i > 0 {
      OneOfTheSum(rs[1..], i - 1);
    }
  }

  lemma {:induction false} TwoOfTheSum(rs: seq<Resumo>, i: nat, j: nat)
    requires i < |rs| && j < |rs| && i != j
    ensures RestanteDaLinha(rs[i]) + RestanteDaLinha(rs[j]) <= SomaRestantes(rs)
  {
    if i > 0 && j > 0 {
      TwoOfTheSum(rs[1..], i - 1, j - 1);
    } else {
      OneOfTheSum(rs[1..], (if i > 0 then i else j) - 1);
    }
  }

  /** The payments of every row are not negative, so a row is owed exactly when something remains. */
  predicate PagosSaos(rs: seq<Resumo>) {
    forall i :: 0 <= i < |rs| ==> rs[i].pago >= 0
  }

  predicate EhAMaisAntigaDevida(rs: seq<Resumo>, i: int) {
    0 <= i < |rs| && RestanteDaLinha(rs[i]) > 0 && forall j :: i < j < |rs| ==> RestanteDaLinha(rs[j]) == 0
  }

  lemma {:induction false} OldestOwed(rs: seq<Resumo>) returns (i: int)
    requires PagosSaos(rs)
    ensures APagarSpec(rs).Nada? ==> forall j :: 0 <= j < |rs| ==> RestanteDaLinha(rs[j]) == 0
    ensures APagarSpec(rs).Algo? ==> EhAMaisAntigaDevida(rs, i) && rs[i] == APagarSpec(rs).valor
  {
    i := |rs| - 1;
    if rs != [] && !Devida(rs[i]) {
      var r := rs[..i];
      i := OldestOwed(r);
      assert forall j :: 0 <= j < |r| ==> rs[j] == r[j];
    }
  }

  lemma {:induction false} FoundRow(rs: seq<Resumo>, v: Data)
    ensures var r := Encontrar(rs, v);
            r.vencimento == v
            && ((exists i :: 0 <= i < |rs| && rs[i] == r)
                || (r == Resumo(v, 0, 0, Ultimo(Nada, 0)) && forall i :: 0 <= i < |rs| ==> rs[i].vencimento != v))
  {
    if rs != [] && rs[0].vencimento != v {
      FoundRow(rs[1..], v);
      assert forall i :: 0 < i < |rs| ==> rs[i] == rs[1..][i - 1];
      if exists i :: 0 <= i < |rs| - 1 && rs[1..][i] == Encontrar(rs[1..], v) {
        var i :| 0 <= i < |rs| - 1 && rs[1..][i] == Encontrar(rs[1..], v);
        assert rs[i + 1] == Encontrar(rs, v);
      }
    }
  }

  lemma {:induction false} PaymentsAddUp(s: seq<Pagamento>)
    requires forall p :: p in s ==> p.valor > 0
    ensures SomaPagamentos(s) >= 0
  {
    if s != [] {
      PaymentsAddUp(s[..|s| - 1]);
    }
  }

  lemma PaidIsNotNegative(b: Banco, cartao: int, v: Data)
    requires Invariante(b)
    ensures LinhaDoResumo(b, cartao, v).pago >= 0
  {
    FilteredRows(b.pagamentos, (p: Pagamento) => p.cartao == cartao && p.vencimento == v);
    PaymentsAddUp(PagamentosEm(b.pagamentos, cartao, v));
  }

  lemma EmptyIfNone<T>(s: seq<T>)
    ensures (forall x :: x !in s) ==> s == []
  {
    assert s != [] ==> s[0] in s;
  }

  /** A date without purchases has no payments either: its row is the empty invoice. */
  lemma NoRowNoPayments(b: Banco, cartao: int, v: Data)
    requires Invariante(b) && !TemFatura(b.compras, cartao, v)
    ensures LinhaDoResumo(b, cartao, v) == Resumo(v, 0, 0, Ultimo(Nada, 0))
  {
    var ps := PagamentosEm(b.pagamentos, cartao, v);
    FilteredRows(b.pagamentos, (p: Pagamento) => p.cartao == cartao && p.vencimento == v);
    EmptyIfNone(ps);
    GroupTotals(b.compras, cartao, v);
  }

  /** The list holds every invoice of the card: 120 at most. */
  predicate CabeNaLista(b: Banco, cartao: int) {
    |Vencimentos(b.compras, cartao)| <= 120
  }

  /** The invoices the list leaves out, older than all it holds. */
  function ForaDaLista(b: Banco, cartao: int): seq<Data> {
    var ds := Vencimentos(b.compras, cartao);
    ds[Min(|ds|, LIMITE_RESUMO)..]
  }

  /** The open cycle's row is its invoice's unless that invoice is left out of the list. */
  lemma OpenRow(b: Banco, cartao: int, v: Data)
    requires Invariante(b)
    ensures Encontrar(ResumoDasFaturas(b, cartao), v) == LinhaDoResumo(b, cartao, v) <==> v !in ForaDaLista(b, cartao)
  {
    var rs, ds := ResumoDasFaturas(b, cartao), Vencimentos(b.compras, cartao);
    FoundRow(rs, v);
    ListedDueDates(b.compras, cartao);
    if v in ds {
      var i :| 0 <= i < |ds| && ds[i] == v;
      PlaceInList(ds, i);
      if i < LIMITE_RESUMO {
        assert rs[i].vencimento == v;
      } else {
        LeftOutIsNotEmpty(b, cartao, v);
        assert forall j :: 0 <= j < |rs| ==> rs[j].vencimento == ds[j];
      }
    } else {
      NoRowNoPayments(b, cartao, v);
      assert forall x :: x in ForaDaLista(b, cartao) ==> x in ds;
    }
  }

  lemma PlaceInList(ds: seq<Data>, i: nat)
    requires Decrescente(ds) && i < |ds|
    ensures ds[i] in ds[Min(|ds|, LIMITE_RESUMO)..] <==> i >= LIMITE_RESUMO
    ensures forall j :: 0 <= j < |ds| && j != i ==> ds[j] != ds[i]
  {
    var k := Min(|ds|, LIMITE_RESUMO);
    if i >= k {
      assert ds[k..][i - k] == ds[i];
    } else {
      forall j | 0 <= j < |ds| - k
        ensures ds[k..][j] != ds[i]
      {
        assert Antes(ds[k + j], ds[i]);
      }
    }
  }

  lemma LeftOutIsNotEmpty(b: Banco, cartao: int, v: Data)
    requires Invariante(b) && TemFatura(b.compras, cartao, v)
    ensures LinhaDoResumo(b, cartao, v).total > 0
  {
    var c :| c in b.compras && NaFatura(c, cartao, v);
    GroupTotals(b.compras, cartao, v);
    FilteredRows(b.compras, (x: Compra) => x.cartao == cartao && x.vencimento == v);
    OneOfTotal(ComprasDaFatura(b.compras, cartao, v), c);
  }

  /** What is left to pay on the invoice of v. */
  function Falta(b: Banco, cartao: int, v: Data): int {
    RestanteDaLinha(LinhaDoResumo(b, cartao, v))
  }

  lemma RemainderOfInvoice(b: Banco, cartao: int, v: Data, hoje: Data)
    requires cartao in b.cartoes
    ensures var f := FaturaSpec(b, cartao, v, hoje);
            f.vencimento == v && Falta(b, cartao, v) == RestanteDe(f.total, f.pago)
  {
    SummaryRowIsTheInvoice(b, cartao, v, hoje);
  }

  /** The invoice to pay, if any, is the oldest that owes something. */
  ghost predicate MaisAntigaDevida(b: Banco, cartao: int, v: Data) {
    && Falta(b, cartao, v) > 0
    && forall w :: Antes(w, v) ==> Falta(b, cartao, w) == 0
  }

  lemma RemainderOfGroup(b: Banco, cartao: int, v: Data)
    ensures Falta(b, cartao, v) == FaltaNoGrupo(b, cartao, v)
  {
    GroupTotals(b.compras, cartao, v);
  }

  lemma {:induction false} OneOfGroups(b: Banco, cartao: int, ds: seq<Data>, v: Data)
    requires v in ds
    ensures SomaGrupos(b, cartao, ds) >= FaltaNoGrupo(b, cartao, v)
  {
    GroupsAddUp(b, cartao, ds[1..]);
    if ds[0] != v {
      OneOfGroups(b, cartao, ds[1..], v);
    }
  }

  /** Groups that owe something among them have one that does. */
  lemma {:induction false} SomeGroupOwes(b: Banco, cartao: int, ds: seq<Data>) returns (i: nat)
    requires SomaGrupos(b, cartao, ds) > 0
    ensures i < |ds| && FaltaNoGrupo(b, cartao, ds[i]) > 0
  {
    i := 0;
    if FaltaNoGrupo(b, cartao, ds[0]) == 0 {
      i := SomeGroupOwes(b, cartao, ds[1..]);
      i := i + 1;
    }
  }

  lemma ListedArePaidSanely(b: Banco, cartao: int)
    requires Invariante(b)
    ensures PagosSaos(ResumoDasFaturas(b, cartao))
  {
    var rs, ds := ResumoDasFaturas(b, cartao), Vencimentos(b.compras, cartao);
    forall i | 0 <= i < |rs|
      ensures rs[i].pago >= 0
    {
      PaidIsNotNegative(b, cartao, ds[i]);
    }
  }

  /** The row to pay is its place in the list: the last that owes something. */
  lemma RowToPay(b: Banco, cartao: int) returns (i: int)
    requires Invariante(b)
    ensures var a, rs := APagarSpec(ResumoDasFaturas(b, cartao)), ResumoDasFaturas(b, cartao);
            && (a.Nada? <==> SomaRestantes(rs) == 0)
            && (a.Algo? ==> EhAMaisAntigaDevida(rs, i) && rs[i] == a.valor
                            && a.valor == LinhaDoResumo(b, cartao, Vencimentos(b.compras, cartao)[i]))
  {
    ListedArePaidSanely(b, cartao);
    i := OldestOwed(ResumoDasFaturas(b, cartao));
    NothingOwedIff(ResumoDasFaturas(b, cartao));
  }

  lemma OlderOwesNothing(b: Banco, cartao: int, i: int, w: Data)
    requires Invariante(b) && SomaGrupos(b, cartao, ForaDaLista(b, cartao)) == 0
    requires EhAMaisAntigaDevida(ResumoDasFaturas(b, cartao), i) && Antes(w, Vencimentos(b.compras, cartao)[i])
    ensures Falta(b, cartao, w) == 0
  {
    var rs, ds := ResumoDasFaturas(b, cartao), Vencimentos(b.compras, cartao);
    ListedDueDates(b.compras, cartao);
    RemainderOfGroup(b, cartao, w);
    if w in ForaDaLista(b, cartao) {
      OneOfGroups(b, cartao, ForaDaLista(b, cartao), w);
    } else if w in ds {
      var j :| 0 <= j < |ds| && ds[j] == w;
      PlaceInList(ds, j);
      assert i < j;
      assert rs[j] == LinhaDoResumo(b, cartao, w);
    } else {
      NoRowNoPayments(b, cartao, w);
    }
  }

  /** A debt left out of the list is older than any invoice the summary can show. */
  lemma LeftOutIsOlder(b: Banco, cartao: int, i: int) returns (w: Data)
    requires 0 <= i < |ResumoDasFaturas(b, cartao)| && SomaGrupos(b, cartao, ForaDaLista(b, cartao)) > 0
    ensures Antes(w, Vencimentos(b.compras, cartao)[i]) && Falta(b, cartao, w) > 0
  {
    var ds := Vencimentos(b.compras, cartao);
    var j := SomeGroupOwes(b, cartao, ForaDaLista(b, cartao));
    w := ForaDaLista(b, cartao)[j];
    ListedDueDates(b.compras, cartao);
    RemainderOfGroup(b, cartao, w);
    assert w == ds[Min(|ds|, LIMITE_RESUMO) + j];
  }

  /** APagar says whether the card owes anything and, if so, is the oldest invoice that does. */
  ghost predicate MostraADivida(b: Banco, cartao: int, a: Opcao<Resumo>) {
    && (a.Nada? <==> TotalNaoPago(b, cartao) == 0)
    && (a.Algo? ==> MaisAntigaDevida(b, cartao, a.valor.vencimento))
  }

  lemma ShowsDebtIff(b: Banco, cartao: int)
    requires Invariante(b)
    ensures MostraADivida(b, cartao, APagarSpec(ResumoDasFaturas(b, cartao)))
            <==> SomaGrupos(b, cartao, ForaDaLista(b, cartao)) == 0
  {
    var a := APagarSpec(ResumoDasFaturas(b, cartao));
    var i := RowToPay(b, cartao);
    UnpaidIsSumOfRemainders(b, cartao);
    GroupsAddUp(b, cartao, ForaDaLista(b, cartao));
    NothingOwedIff(ResumoDasFaturas(b, cartao));
    if a.Algo? {
      if SomaGrupos(b, cartao, ForaDaLista(b, cartao)) == 0 {
        forall w | Antes(w, a.valor.vencimento)
          ensures Falta(b, cartao, w) == 0
        {
          OlderOwesNothing(b, cartao, i, w);
        }
      } else {
        var w := LeftOutIsOlder(b, cartao, i);
      }
    }
  }

  function FaltaNaVista(f: Opcao<Vista>): int {
    if f.Nada? then 0 else RestanteDe(f.valor.total, f.valor.pago)
  }

  /** The summary shows an invoice to pay exactly when the card owes something, and then the oldest that
      does, if and only if nothing is owed on the invoices its list of 120 leaves out; whatever it shows
      to pay is the invoice assembled from its rows, and so is the open one unless it was left out. */
  lemma SummaryShowsTheOldestDebt(b: Banco, cartao: int, hoje: Data)
    requires Invariante(b) && cartao in b.cartoes
    ensures var r, v := ResumoSpec(b, cartao, hoje), FaturaDaCompra(b.cartoes[cartao].ciclo, hoje);
            && ((r.aPagar.Nada? <==> TotalNaoPago(b, cartao) == 0)
                && (r.aPagar.Algo? ==> MaisAntigaDevida(b, cartao, r.aPagar.valor.vencimento))
                <==> SomaGrupos(b, cartao, ForaDaLista(b, cartao)) == 0)
            && (r.aPagar.Algo? ==> r.aPagar.valor == FaturaSpec(b, cartao, r.aPagar.valor.vencimento, hoje))
            && (r.emAberto.Algo? ==>
                  (r.emAberto.valor == FaturaSpec(b, cartao, v, hoje) <==> v !in ForaDaLista(b, cartao)))
  {
    ShowsDebtIff(b, cartao);
    ShownAreInvoices(b, cartao, hoje);
  }

  lemma ShownAreInvoices(b: Banco, cartao: int, hoje: Data)
    requires Invariante(b) && cartao in b.cartoes
    ensures var c, v := b.cartoes[cartao].ciclo, FaturaDaCompra(b.cartoes[cartao].ciclo, hoje);
            var a := APagarSpec(ResumoDasFaturas(b, cartao));
            && (a.Algo? ==> MontarDoResumoSpec(c, a.valor, hoje) == FaturaSpec(b, cartao, a.valor.vencimento, hoje))
            && (MontarDoResumoSpec(c, Encontrar(ResumoDasFaturas(b, cartao), v), hoje) == FaturaSpec(b, cartao, v, hoje)
                <==> v !in ForaDaLista(b, cartao))
  {
    var v := FaturaDaCompra(b.cartoes[cartao].ciclo, hoje);
    var i := RowToPay(b, cartao);
    var rs := ResumoDasFaturas(b, cartao);
    if APagarSpec(rs).Algo? {
      SummaryRowIsTheInvoice(b, cartao, APagarSpec(rs).valor.vencimento, hoje);
    }
    OpenRow(b, cartao, v);
    SummaryRowIsTheInvoice(b, cartao, v, hoje);
    SameViewSameRow(b.cartoes[cartao].ciclo, Encontrar(rs, v), LinhaDoResumo(b, cartao, v), hoje);
    FoundRow(rs, v);
  }

  lemma SameViewSameRow(c: Cartao, r: Resumo, s: Resumo, hoje: Data)
    ensures MontarDoResumoSpec(c, r, hoje) == MontarDoResumoSpec(c, s, hoje) <==> r == s
  {}

  /** The open invoice is shown unless it is the one to pay; both carry the dates they should. The free
      limit is the card's less all that is owed, never below zero and nothing without a limit, and the best
      day is the one after the month's closing. */
  lemma SummaryFields(b: Banco, cartao: int, hoje: Data)
    requires cartao in b.cartoes && CartaoValido(b.cartoes[cartao].ciclo)
    ensures var r, k := ResumoSpec(b, cartao, hoje), b.cartoes[cartao];
            && (r.emAberto.Nada?
                <==> r.aPagar.Algo? && r.aPagar.valor.vencimento == FaturaDaCompra(k.ciclo, hoje))
            && (r.emAberto.Algo? ==> r.emAberto.valor.vencimento == FaturaDaCompra(k.ciclo, hoje))
            && (k.limite > 0 ==> r.limiteDisponivel == NaoNegativo(k.limite - TotalNaoPago(b, cartao)))
            && (k.limite <= 0 ==> r.limiteDisponivel == 0)
            && NumeroDoDia(r.melhorDia) == NumeroDoDia(FechamentoDoMes(k.ciclo, hoje)) + 1
  {
    FoundRow(ResumoDasFaturas(b, cartao), FaturaDaCompra(b.cartoes[cartao].ciclo, hoje));
    ClosingOfMonth(b.cartoes[cartao].ciclo, hoje);
    NextDay(FechamentoDoMes(b.cartoes[cartao].ciclo, hoje));
  }

  /** A card with 120 invoices or fewer leaves none out. */
  lemma ShortListLeavesNothingOut(b: Banco, cartao: int)
    requires CabeNaLista(b, cartao)
    ensures ForaDaLista(b, cartao) == [] && SomaGrupos(b, cartao, ForaDaLista(b, cartao)) == 0
  {}

  lemma {:induction false} LastOwedIsListed(rs: seq<Resumo>)
    requires APagarSpec(rs).Algo?
    ensures exists i :: 0 <= i < |rs| && rs[i] == APagarSpec(rs).valor
  {
    if !Devida(rs[|rs| - 1]) {
      LastOwedIsListed(rs[..|rs| - 1]);
    }
  }

  lemma ShownRemainders(rs: seq<Resumo>, v: Data)
    ensures var a, e := APagarSpec(rs), EmAbertoSpec(rs, APagarSpec(rs), v);
            FaltaNaLinha(a) + FaltaNaLinha(e) <= SomaRestantes(rs)
  {
    var a := APagarSpec(rs);
    NothingOwedIff(rs);
    FoundRow(rs, v);
    if a.Algo? {
      LastOwedIsListed(rs);
      var i :| 0 <= i < |rs| && rs[i] == a.valor;
      OneOfTheSum(rs, i);
      if a.valor.vencimento != v && exists j :: 0 <= j < |rs| && rs[j] == Encontrar(rs, v) {
        var j :| 0 <= j < |rs| && rs[j] == Encontrar(rs, v);
        TwoOfTheSum(rs, i, j);
      }
    } else if exists j :: 0 <= j < |rs| && rs[j] == Encontrar(rs, v) {
      var j :| 0 <= j < |rs| && rs[j] == Encontrar(rs, v);
      OneOfTheSum(rs, j);
    }
  }

  lemma {:induction false} GroupsAddUp(b: Banco, cartao: int, ds: seq<Data>)
    ensures SomaGrupos(b, cartao, ds) >= 0
  {
    if ds != [] {
      GroupsAddUp(b, cartao, ds[1..]);
    }
  }

  lemma {:induction false} GroupsSplit(b: Banco, cartao: int, antes: seq<Data>, depois: seq<Data>)
    ensures SomaGrupos(b, cartao, antes + depois) == SomaGrupos(b, cartao, antes) + SomaGrupos(b, cartao, depois)
  {
    if antes == [] {
      assert antes + depois == depois;
    } else {
      GroupsSplit(b, cartao, antes[1..], depois);
      assert (antes + depois)[1..] == antes[1..] + depois;
    }
  }

  /** However many invoices the card has, the two shown never owe more than TotalNaoPago, and so never
      more than the limit in use. */
  lemma ShownNeverExceedsOwed(b: Banco, cartao: int, hoje: Data)
    requires cartao in b.cartoes
    ensures var r := ResumoSpec(b, cartao, hoje);
            FaltaNaVista(r.aPagar) + FaltaNaVista(r.emAberto) <= TotalNaoPago(b, cartao)
  {
    var c, v := b.cartoes[cartao].ciclo, FaturaDaCompra(b.cartoes[cartao].ciclo, hoje);
    var rs := ResumoDasFaturas(b, cartao);
    ShownRemainders(rs, v);
    ListedAtMostOwed(b, cartao);
    RemainderShown(c, APagarSpec(rs), hoje);
    RemainderShown(c, EmAbertoSpec(rs, APagarSpec(rs), v), hoje);
  }

  function FaltaNaLinha(r: Opcao<Resumo>): int {
    if r.Nada? then 0 else RestanteDaLinha(r.valor)
  }

  lemma RemainderShown(c: Cartao, r: Opcao<Resumo>, hoje: Data)
    ensures FaltaNaVista(Montada(c, r, hoje)) == FaltaNaLinha(r)
  {}

  lemma ListedAtMostOwed(b: Banco, cartao: int)
    ensures SomaRestantes(ResumoDasFaturas(b, cartao)) <= TotalNaoPago(b, cartao)
  {
    UnpaidIsSumOfRemainders(b, cartao);
    GroupsAddUp(b, cartao, ForaDaLista(b, cartao));
  }
}
