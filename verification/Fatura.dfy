/** Card purchases and invoices (internal/core/domain/fatura.go). */
module Fatura {
  import opened Comum
  import opened Texto
  import opened Tabelas
  import opened Centavos
  import opened Calendario
  import opened CicloCartao

  const MAX_PARCELAS_CARTAO := 36

  /** One instalment of a purchase, as stored. */
  datatype Compra = Compra(id: int, cartao: int, grupo: int, valor: int, data: Data, numero: int, total: int,
                           vencimento: Data)

  /** `id` grows with created_at: payments are stored one after another. */
  datatype Pagamento = Pagamento(id: int, cartao: int, vencimento: Data, transacao: int, valor: int, pagoEm: Data)

  datatype ErroCompra = UsuarioObrigatorio | DataObrigatoria | DescricaoLonga | ParcelasInvalidas
                      | ValorNaoPositivo | ValorAcima | ParcelaAbaixo

  /** One instalment before it is stored. */
  datatype Parcela = Parcela(valor: int, numero: int, vencimento: Data)

  function ParcelaDaCompra(valor: int, n: int, primeira: Data, i: nat): Parcela
    requires n >= 1
  {
    var porParcela := Quo(valor, n);
    Parcela(porParcela + if i == 0 then valor - porParcela * n else 0, i + 1, AddMonthsClamped(primeira, i))
  }

  function ParcelasDaCompra(valor: int, n: nat, primeira: Data): seq<Parcela> {
    seq(n, i requires 0 <= i < n => ParcelaDaCompra(valor, n, primeira, i))
  }

  function Parceladas(totalParcelas: int): int {
    if totalParcelas == 0 then 1 else totalParcelas
  }

  function ErroDeValor(valor: int, n: int): Opcao<ErroCompra> {
    if n < 1 || n > MAX_PARCELAS_CARTAO then Algo(ParcelasInvalidas)
    else if valor <= 0 then Algo(ValorNaoPositivo)
    else if valor > MAX_MONEY then Algo(ValorAcima)
    else if valor < n then Algo(ParcelaAbaixo)
    else Nada
  }

  /** The instalments of a purchase whose user, date and description are in order. */
  function NewCompraCartaoSpec(c: Cartao, valor: int, data: Data, totalParcelas: int)
    : Resultado<seq<Parcela>, ErroCompra>
  {
    var e := ErroDeValor(valor, Parceladas(totalParcelas));
    if e.Algo? then Err(e.valor) else Ok(ParcelasDaCompra(valor, Parceladas(totalParcelas), FaturaDaCompra(c, data)))
  }

  /** `data` is missing when it is the zero time. */
  datatype CompraInput = CompraInput(usuario: string, valor: int, data: Opcao<Data>, totalParcelas: int,
                                     descricao: string)

  predicate DescricaoOk(descricao: string) {
    |Normalizado(descricao)| <= 255
  }

  /** The description stored with instalment i of n: numbered if there is one and the purchase is divided. */
  function DescricaoDaParcela(descricao: string, i: nat, n: nat): string {
    if n > 1 && descricao != "" then ComNumero(descricao, i, n) else descricao
  }

  /** Every instalment's description fits its column. */
  predicate CabeNaColuna(descricao: string, n: nat) {
    forall i :: 1 <= i <= n ==> |DescricaoDaParcela(Normalizado(descricao), i, n)| <= LARGURA_DESCRICAO
  }

  /** Of the descriptions the domain accepts, the database takes those the numbering leaves room for. */
  lemma DescriptionFitsIff(descricao: string, n: nat)
    requires DescricaoOk(descricao) && 1 <= n <= MAX_PARCELAS_CARTAO
    ensures var d := Normalizado(descricao);
            CabeNaColuna(descricao, n)
            <==> n == 1 || d == "" || |d| + (if n < 10 then 6 else 8) <= LARGURA_DESCRICAO
  {
    var d := Normalizado(descricao);
    if n > 1 && d != "" {
      NumberedFitIff(d, 1, n);
      assert forall i :: 1 <= i <= n ==> DescricaoDaParcela(d, i, n) == ComNumero(d, i, n);
    }
  }

  function NovaCompraSpec(c: Cartao, x: CompraInput): Resultado<seq<Parcela>, ErroCompra> {
    var e := ErroDeValor(x.valor, Parceladas(x.totalParcelas));
    if EmBranco(x.usuario) then Err(UsuarioObrigatorio)
    else if e.Algo? then Err(e.valor)
    else if x.data.Nada? then Err(DataObrigatoria)
    else if !DescricaoOk(x.descricao) then Err(DescricaoLonga)
    else NewCompraCartaoSpec(c, x.valor, x.data.valor, x.totalParcelas)
  }

  method NewCompraCartao(c: Cartao, x: CompraInput) returns (r: Resultado<seq<Parcela>, ErroCompra>)
    ensures r == NovaCompraSpec(c, x)
  {
    if EmBranco(x.usuario) {
      return Err(UsuarioObrigatorio);
    }
    var n := x.totalParcelas;
    if n == 0 {
      n := 1;
    }
    if n < 1 || n > MAX_PARCELAS_CARTAO {
      return Err(ParcelasInvalidas);
    }
    if x.valor <= 0 {
      return Err(ValorNaoPositivo);
    }
    if x.valor > MAX_MONEY {
      return Err(ValorAcima);
    }
    if x.valor < n {
      return Err(ParcelaAbaixo);
    }
    if x.data.Nada? {
      return Err(DataObrigatoria);
    }
    if |Normalizado(x.descricao)| > 255 {
      return Err(DescricaoLonga);
    }
    var primeira := FaturaDaCompra(c, x.data.valor);
    var out := Parcelar(x.valor, n, primeira);
    return Ok(out);
  }

  method Parcelar(valor: int, n: nat, primeira: Data) returns (out: seq<Parcela>)
    requires n >= 1
    ensures out == ParcelasDaCompra(valor, n, primeira)
  {
    var porParcela := Quo(valor, n);
    var residuo := valor - porParcela * n;
    out := [];
    var i := 0;
    while i < n
      invariant 0 <= i <= n
      invariant out == ParcelasDaCompra(valor, n, primeira)[..i]
    {
      var v := porParcela;
      if i == 0 {
        v := v + residuo;
      }
      out := out + [Parcela(v, i + 1, AddMonthsClamped(primeira, i))];
      i := i + 1;
    }
  }

  function SomaParcelas(s: seq<Parcela>): int {
    Somar(s, (p: Parcela) => p.valor)
  }

  /** The instalments of an accepted purchase: at least a cent each, one a month, in all its price. */
  predicate Divide(s: seq<Parcela>, valor: int, primeira: Data) {
    && SomaParcelas(s) == valor
    && forall i :: 0 <= i < |s| ==> s[i].valor >= 1 && s[i].numero == i + 1
                                    && s[i].vencimento == AddMonthsClamped(primeira, i)
  }

  /** A purchase is accepted with 1 to 36 instalments, none being one, of a cent or more and up to the
      largest amount; they are equal, the remainder of the division in the first, and add up to it. */
  lemma PurchaseIsDividedExactly(c: Cartao, valor: int, data: Data, totalParcelas: int)
    ensures var n := if totalParcelas == 0 then 1 else totalParcelas;
            var r := NewCompraCartaoSpec(c, valor, data, totalParcelas);
            && (r.Ok? <==> 1 <= n <= 36 && n <= valor <= MAX_MONEY)
            && (r.Ok? ==> |r.valor| == n == Parceladas(totalParcelas)
                          && Divide(r.valor, valor, FaturaDaCompra(c, data))
                          && EmPartes(r.valor, (p: Parcela) => p.valor, valor / n, valor % n))
  {
    var n := Parceladas(totalParcelas);
    if 1 <= n <= MAX_PARCELAS_CARTAO && n <= valor <= MAX_MONEY {
      PartsOfPurchase(valor, n, FaturaDaCompra(c, data));
    }
  }

  lemma PartsOfPurchase(valor: int, n: nat, primeira: Data)
    requires 1 <= n <= valor
    ensures Divide(ParcelasDaCompra(valor, n, primeira), valor, primeira)
    ensures EmPartes(ParcelasDaCompra(valor, n, primeira), (p: Parcela) => p.valor, valor / n, valor % n)
  {
    DivisionIsExact(valor, n, primeira);
    RestOfDivision(valor, n);
  }

  lemma EqualPart(valor: int, n: nat)
    requires 1 <= n <= valor
    ensures Quo(valor, n) >= 1 && 0 <= valor - Quo(valor, n) * n
  {
    var q := valor / n;
    assert valor == n * q + valor % n;
  }

  lemma DivisionIsExact(valor: int, n: nat, primeira: Data)
    requires 1 <= n <= valor
    ensures Divide(ParcelasDaCompra(valor, n, primeira), valor, primeira)
  {
    EqualPart(valor, n);
    var s, q := ParcelasDaCompra(valor, n, primeira), Quo(valor, n);
    SumOfParts(s, (p: Parcela) => p.valor, q, valor - q * n);
  }

  // ----- where each instalment lands -----

  lemma InvoiceIsADueDate(c: Cartao, data: Data)
    requires CartaoValido(c) && Valida(data)
    ensures FaturaDaCompra(c, data) == Vencimento(c, FaturaDaCompra(c, data).mes)
  {
    InvoiceOfPurchase(c, data);
  }

  lemma MonthsFromADueDate(c: Cartao, mes: int, i: nat)
    requires CartaoValido(c)
    ensures AddMonthsClamped(Vencimento(c, mes), i)
         == Data(mes + i, Min(Min(c.diaVencimento, DiasNoMes(mes)), DiasNoMes(mes + i)))
  {
    AddMonthsClampedClamps(Vencimento(c, mes), i);
  }

  /** i months after the due date v, on the due day there exactly when that day, clamped to its month,
      fits the month of v. */
  predicate CaiNoVencimentoSeCabe(c: Cartao, v: Data, i: nat) {
    && AddMonthsClamped(v, i).mes == v.mes + i
    && (AddMonthsClamped(v, i) == VencimentoDe(c, v.mes + i)
        <==> Min(c.diaVencimento, DiasNoMes(v.mes + i)) <= DiasNoMes(v.mes))
  }

  lemma OnDueDate(c: Cartao, v: Data, i: nat)
    requires CartaoValido(c) && v == Vencimento(c, v.mes)
    ensures CaiNoVencimentoSeCabe(c, v, i)
  {
    MonthsFromADueDate(c, v.mes, i);
    DueOfMonth(c, v.mes + i);
  }

  /** Instalment i of a purchase lands in the i-th month after its first invoice, on the date that
      month's invoice falls due exactly when the due day fits the first invoice's month. */
  lemma InstalmentOnItsDueDate(c: Cartao, data: Data, i: nat)
    requires CartaoValido(c) && Valida(data)
    ensures CaiNoVencimentoSeCabe(c, FaturaDaCompra(c, data), i)
  {
    InvoiceIsADueDate(c, data);
    OnDueDate(c, FaturaDaCompra(c, data), i);
  }

  /** So every instalment of a card due by the 28th is on its invoice's due date. */
  lemma EarlyDueDaysNeverDrift(c: Cartao, data: Data, i: nat)
    requires CartaoValido(c) && Valida(data) && c.diaVencimento <= 28
    ensures AddMonthsClamped(FaturaDaCompra(c, data), i) == VencimentoDe(c, FaturaDaCompra(c, data).mes + i)
  {
    InstalmentOnItsDueDate(c, data, i);
  }

  /** A card due on the 31st whose first invoice falls in a 28-day February: the next instalment is
      filed under 28 March, a date under which no invoice of the card is ever looked up. */
  lemma LaterInstalmentsCanDrift(c: Cartao, data: Data)
    requires c == Cartao(20, 31) && Valida(data)
    requires FaturaDaCompra(c, data).mes % 12 == 1 && DiasNoMes(FaturaDaCompra(c, data).mes) == 28
    ensures forall m: int :: AddMonthsClamped(FaturaDaCompra(c, data), 1) != VencimentoDe(c, m)
  {
    InvoiceIsADueDate(c, data);
    DriftFromFebruary(c, FaturaDaCompra(c, data));
  }

  /** Such a purchase: 10 February 2023 on the card that closes on the 20th. */
  lemma FebruaryOf2023Drifts()
    ensures forall m: int ::
              AddMonthsClamped(FaturaDaCompra(Cartao(20, 31), Data(12 * 2023 + 1, 10)), 1)
              != VencimentoDe(Cartao(20, 31), m)
  {
    var c, d := Cartao(20, 31), Data(12 * 2023 + 1, 10);
    InvoiceOfPurchase(c, d);
    assert FaturaDaCompra(c, d).mes == d.mes;
    LaterInstalmentsCanDrift(c, d);
  }

  lemma DriftFromFebruary(c: Cartao, v: Data)
    requires c == Cartao(20, 31) && v == Vencimento(c, v.mes) && v.mes % 12 == 1 && DiasNoMes(v.mes) == 28
    ensures forall m: int :: AddMonthsClamped(v, 1) != VencimentoDe(c, m)
  {
    MonthsFromADueDate(c, v.mes, 1);
    assert (v.mes + 1) % 12 == 2;
    forall m: int
      ensures AddMonthsClamped(v, 1) != VencimentoDe(c, m)
    {
      DueOfMonth(c, m);
    }
  }

  // ----- invoices -----

  datatype Status = Aberta | Fechada | Parcial | Paga

  /** The view of a billing cycle; `ultimoEm` is none when there is no payment. */
  datatype Vista = Vista(vencimento: Data, inicio: Data, fim: Data, total: int, pago: int,
                         ultimoEm: Opcao<Data>, ultimoValor: int, status: Status)

  function RestanteDe(total: int, pago: int): int {
    if total - pago > 0 then total - pago else 0
  }

  predicate QuitadaCom(total: int, pago: int) {
    pago > 0 && pago >= total
  }

  function StatusDe(total: int, pago: int, fim: Data, hoje: Data): Status {
    if QuitadaCom(total, pago) then Paga
    else if pago > 0 then Parcial
    else if !Antes(fim, hoje) then Aberta
    else Fechada
  }

  function SomaCompras(s: seq<Compra>): int {
    if s == [] then 0 else SomaCompras(s[..|s| - 1]) + s[|s| - 1].valor
  }

  function SomaPagamentos(s: seq<Pagamento>): int {
    if s == [] then 0 else SomaPagamentos(s[..|s| - 1]) + s[|s| - 1].valor
  }

  datatype Ultimo = Ultimo(em: Opcao<Data>, valor: int)

  /** !pag.PagoEm.Before(ultimo), where no date yet counts as the earliest. */
  predicate NaoAntes(d: Data, em: Opcao<Data>) {
    em.Nada? || !Antes(d, em.valor)
  }

  /** The last payment as the loop of MontarFatura tracks it. */
  function UltimoDe(s: seq<Pagamento>): Ultimo {
    if s == [] then Ultimo(Nada, 0)
    else
      var u, p := UltimoDe(s[..|s| - 1]), s[|s| - 1];
      if NaoAntes(p.pagoEm, u.em) then Ultimo(Algo(p.pagoEm), p.valor) else u
  }

  function VistaDe(c: Cartao, vencimento: Data, total: int, pago: int, u: Ultimo, hoje: Data): Vista {
    var fim := FimDoCiclo(c, vencimento);
    Vista(vencimento, InicioDoCiclo(c, vencimento), fim, total, pago, u.em, u.valor, StatusDe(total, pago, fim, hoje))
  }

  function MontarFaturaSpec(c: Cartao, vencimento: Data, compras: seq<Compra>, pagamentos: seq<Pagamento>, hoje: Data)
    : Vista
  {
    VistaDe(c, vencimento, SomaCompras(compras), SomaPagamentos(pagamentos), UltimoDe(pagamentos), hoje)
  }

  /** A row of the grouped query. */
  datatype Resumo = Resumo(vencimento: Data, total: int, pago: int, ultimo: Ultimo)

  function MontarDoResumoSpec(c: Cartao, r: Resumo, hoje: Data): Vista {
    VistaDe(c, r.vencimento, r.total, r.pago, r.ultimo, hoje)
  }

  class Invoice {
    var vencimento: Data
    var inicioCiclo: Data
    var fimCiclo: Data
    var total: int
    var pago: int
    var ultimoEm: Opcao<Data>
    var ultimoValor: int
    var status: Status

    function Ver(): Vista
      reads this
    {
      Vista(vencimento, inicioCiclo, fimCiclo, total, pago, ultimoEm, ultimoValor, status)
    }

    constructor (c: Cartao, v: Data)
      ensures vencimento == v && inicioCiclo == InicioDoCiclo(c, v) && fimCiclo == FimDoCiclo(c, v)
      ensures total == pago == ultimoValor == 0 && ultimoEm == Nada && status == Fechada
    {
      vencimento, inicioCiclo, fimCiclo := v, InicioDoCiclo(c, v), FimDoCiclo(c, v);
      total, pago, ultimoEm, ultimoValor, status := 0, 0, Nada, 0, Fechada;
    }

    function Restante(): (r: int)
      reads this
      ensures r >= 0 && (r == 0 <==> pago >= total) && (r > 0 ==> pago + r == total)
    {
      RestanteDe(total, pago)
    }

    predicate Quitada()
      reads this
    {
      QuitadaCom(total, pago)
    }

    method AtualizarStatus(hoje: Data)
      modifies this`status
      ensures status == StatusDe(total, pago, fimCiclo, hoje)
    {
      if Quitada() {
        status := Paga;
      } else if pago > 0 {
        status := Parcial;
      } else if !Antes(fimCiclo, hoje) {
        status := Aberta;
      } else {
        status := Fechada;
      }
    }
  }

  method MontarFatura(c: Cartao, vencimento: Data, compras: seq<Compra>, pagamentos: seq<Pagamento>, hoje: Data)
    returns (f: Invoice)
    ensures fresh(f) && f.Ver() == MontarFaturaSpec(c, vencimento, compras, pagamentos, hoje)
  {
    f := new Invoice(c, vencimento);
    var i := 0;
    while i < |compras|
      invariant 0 <= i <= |compras|
      invariant f.total == SomaCompras(compras[..i]) && f.pago == f.ultimoValor == 0 && f.ultimoEm == Nada
      invariant f.vencimento == vencimento && f.inicioCiclo == InicioDoCiclo(c, vencimento)
      invariant f.fimCiclo == FimDoCiclo(c, vencimento)
    {
      assert compras[..i + 1][..i] == compras[..i];
      f.total := f.total + compras[i].valor;
      i := i + 1;
    }
    assert compras[..i] == compras;
    SomarPagamentos(f, pagamentos);
    f.AtualizarStatus(hoje);
  }

  method SomarPagamentos(f: Invoice, pagamentos: seq<Pagamento>)
    requires f.pago == f.ultimoValor == 0 && f.ultimoEm == Nada
    modifies f`pago, f`ultimoEm, f`ultimoValor
    ensures f.pago == SomaPagamentos(pagamentos) && Ultimo(f.ultimoEm, f.ultimoValor) == UltimoDe(pagamentos)
  {
    var i := 0;
    while i < |pagamentos|
      invariant 0 <= i <= |pagamentos|
      invariant f.pago == SomaPagamentos(pagamentos[..i])
      invariant Ultimo(f.ultimoEm, f.ultimoValor) == UltimoDe(pagamentos[..i])
    {
      var pag := pagamentos[i];
      assert pagamentos[..i + 1][..i] == pagamentos[..i];
      f.pago := f.pago + pag.valor;
      if NaoAntes(pag.pagoEm, f.ultimoEm) {
        f.ultimoEm := Algo(pag.pagoEm);
        f.ultimoValor := pag.valor;
      }
      i := i + 1;
    }
    assert pagamentos[..i] == pagamentos;
  }

  method MontarDoResumo(c: Cartao, r: Resumo, hoje: Data) returns (f: Invoice)
    ensures fresh(f) && f.Ver() == MontarDoResumoSpec(c, r, hoje)
  {
    f := MontarFatura(c, r.vencimento, [], [], hoje);
    f.total := r.total;
    f.pago := r.pago;
    f.ultimoEm := r.ultimo.em;
    f.ultimoValor := r.ultimo.valor;
    f.AtualizarStatus(hoje);
  }
}
