/** Instalment plans (internal/core/domain/parcelamento.go). */
module Parcelamento {
  import opened Comum
  import opened Tabelas
  import opened Calendario
  import opened Centavos
  import opened Financiamento
  import opened Amortizacao

  datatype Tipo = Parcelado | Recorrente

  datatype Entrada = Entrada(tipo: Tipo, valorTotal: int, valorParcela: int, totalParcelas: int, primeira: Data,
                             jaPagas: int, financiamento: Opcao<Contrato>)

  datatype Parcelamento = Parcelamento(tipo: Tipo, valorTotal: int, valorParcela: int, totalParcelas: int,
                                       primeira: Data, jaPagas: int, financiamento: Opcao<Contrato>)

  /** The fields of a generated transaction that depend on the plan; it is always a saída. */
  datatype Lancamento = Lancamento(numero: int, data: Data, valor: int)

  datatype ErroPlano = UsuarioObrigatorio | TipoInvalido | DescricaoInvalida | DataObrigatoria | NumeroDeParcelas
                     | JaPagasNegativo | JaPagasDemais | TipoSemFinanciamento | Contratual(erro: Erro)
                     | TotalAcimaDoLimite | ValorObrigatorio | ParcelaMinima

  type Criado = Resultado<Parcelamento, ErroPlano>

  predicate TaxaOk(f: Opcao<Contrato>) {
    f.Algo? ==> f.valor.taxa >= 0.0
  }

  /** Financiamento.Validate, on what is kept of the contract. */
  function Validate(c: Contrato): Opcao<Erro> {
    if c.valor <= 0 || c.valor > MAX_MONEY then Algo(ValorInvalido)
    else if c.extra < 0 || c.extra > MAX_MONEY then Algo(ExtraInvalido)
    else Nada
  }

  function DoFinanciamento(e: Entrada, c: Contrato): Criado
    requires c.taxa >= 0.0
  {
    var fin := c.(prazo := e.totalParcelas);
    var cron := CronogramaSpec(fin, e.totalParcelas, e.primeira);
    if Validate(c).Algo? then Err(Contratual(Validate(c).valor))
    else if cron.Recusada? then Err(Contratual(cron.erro))
    else if SomaValor(cron.linhas) > MAX_MONEY then Err(TotalAcimaDoLimite)
    else if e.jaPagas >= |cron.linhas| then Err(JaPagasDemais)
    else
      assert cron.linhas != [] by { ScheduleConserves(fin, e.totalParcelas, e.primeira); }
      Ok(Parcelamento(e.tipo, SomaValor(cron.linhas), cron.linhas[0].valor, |cron.linhas|, e.primeira, e.jaPagas,
                      Algo(fin)))
  }

  function NewParcelamentoSpec(e: Entrada): Criado
    requires TaxaOk(e.financiamento)
  {
    var n := e.totalParcelas;
    if n < 1 || n > MAX_PARCELAS then Err(NumeroDeParcelas)
    else if e.jaPagas < 0 then Err(JaPagasNegativo)
    else if e.jaPagas >= n then Err(JaPagasDemais)
    else if e.financiamento.Algo? then
      if e.tipo != Parcelado then Err(TipoSemFinanciamento) else DoFinanciamento(e, e.financiamento.valor)
    else
      match e.tipo
      case Parcelado =>
        if e.valorTotal <= 0 then Err(ValorObrigatorio)
        else if e.valorTotal > MAX_MONEY then Err(TotalAcimaDoLimite)
        else if e.valorTotal < n then Err(ParcelaMinima)
        else Ok(Parcelamento(e.tipo, e.valorTotal, Quo(e.valorTotal, n), n, e.primeira, e.jaPagas, Nada))
      case Recorrente =>
        if e.valorParcela <= 0 then Err(ValorObrigatorio)
        else if e.valorParcela > Quo(MAX_MONEY, n) then Err(TotalAcimaDoLimite)
        else Ok(Parcelamento(e.tipo, e.valorParcela * n, e.valorParcela, n, e.primeira, e.jaPagas, Nada))
  }

  method NewParcelamento(e: Entrada) returns (r: Criado)
    requires TaxaOk(e.financiamento)
    ensures r == NewParcelamentoSpec(e)
  {
    if e.totalParcelas < 1 || e.totalParcelas > MAX_PARCELAS {
      return Err(NumeroDeParcelas);
    }
    if e.jaPagas < 0 {
      return Err(JaPagasNegativo);
    }
    if e.jaPagas >= e.totalParcelas {
      return Err(JaPagasDemais);
    }
    var p := Parcelamento(e.tipo, 0, 0, e.totalParcelas, e.primeira, e.jaPagas, Nada);
    if e.financiamento.Algo? {
      if e.tipo != Parcelado {
        return Err(TipoSemFinanciamento);
      }
      var fin := e.financiamento.valor;
      if Validate(fin).Algo? {
        return Err(Contratual(Validate(fin).valor));
      }
      fin := fin.(prazo := e.totalParcelas);
      var cron := Cronograma(fin, e.totalParcelas, e.primeira);
      if cron.Recusada? {
        return Err(Contratual(cron.erro));
      }
      var total, juros := TotaisCronograma(cron.linhas);
      if total > MAX_MONEY {
        return Err(TotalAcimaDoLimite);
      }
      ScheduleConserves(fin, e.totalParcelas, e.primeira);
      p := p.(financiamento := Algo(fin), valorTotal := total, valorParcela := cron.linhas[0].valor,
              totalParcelas := |cron.linhas|);
      if p.jaPagas >= p.totalParcelas {
        return Err(JaPagasDemais);
      }
      return Ok(p);
    }
    var n := e.totalParcelas;
    if e.tipo == Parcelado {
      if e.valorTotal <= 0 {
        return Err(ValorObrigatorio);
      }
      if e.valorTotal > MAX_MONEY {
        return Err(TotalAcimaDoLimite);
      }
      if e.valorTotal < n {
        return Err(ParcelaMinima);
      }
      p := p.(valorTotal := e.valorTotal, valorParcela := Quo(e.valorTotal, n));
    } else {
      if e.valorParcela <= 0 {
        return Err(ValorObrigatorio);
      }
      if e.valorParcela > Quo(MAX_MONEY, n) {
        return Err(TotalAcimaDoLimite);
      }
      p := p.(valorParcela := e.valorParcela, valorTotal := e.valorParcela * n);
    }
    return Ok(p);
  }

  // ----- the plan's transactions -----

  function DaTabela(r: seq<ParcelaProjetada>): seq<Lancamento> {
    seq(|r|, i requires 0 <= i < |r| => Lancamento(r[i].numero, r[i].data, r[i].valor))
  }

  /** Equal parts, what is left of the total in the first. */
  function Partes(p: Parcelamento): seq<Lancamento> {
    var n := if p.totalParcelas < 0 then 0 else p.totalParcelas;
    var residuo := p.valorTotal - p.valorParcela * p.totalParcelas;
    seq(n, i requires 0 <= i < n =>
      Lancamento(i + 1, AddMonthsClamped(p.primeira, i), p.valorParcela + if i == 0 then residuo else 0))
  }

  /** Parcelamento.cronograma: every instalment of the contract. */
  function CronogramaDoPlano(p: Parcelamento): seq<Lancamento>
    requires TaxaOk(p.financiamento)
  {
    if p.financiamento.Algo? then
      var c := p.financiamento.valor;
      var t := CronogramaSpec(c, PrazoBase(c, p.totalParcelas), p.primeira);
      if t.Recusada? then [] else DaTabela(t.linhas)
    else Partes(p)
  }

  method CronogramaCompleto(p: Parcelamento) returns (out: seq<Lancamento>)
    requires TaxaOk(p.financiamento)
    ensures out == CronogramaDoPlano(p)
  {
    if p.financiamento.Algo? {
      var c := p.financiamento.valor;
      var cron := Cronograma(c, PrazoBase(c, p.totalParcelas), p.primeira);
      if cron.Recusada? {
        return [];
      }
      out := LancamentosDaTabela(cron.linhas);
    } else {
      out := LancamentosIguais(p);
    }
  }

  method LancamentosDaTabela(linhas: seq<ParcelaProjetada>) returns (out: seq<Lancamento>)
    ensures out == DaTabela(linhas)
  {
    out := [];
    var i := 0;
    while i < |linhas|
      invariant 0 <= i <= |linhas|
      invariant out == DaTabela(linhas)[..i]
    {
      var l := linhas[i];
      out := out + [Lancamento(l.numero, l.data, l.valor)];
      i := i + 1;
    }
  }

  method LancamentosIguais(p: Parcelamento) returns (out: seq<Lancamento>)
    ensures out == Partes(p)
  {
    out := [];
    var residuo := p.valorTotal - p.valorParcela * p.totalParcelas;
    var i := 0;
    while i < p.totalParcelas
      invariant 0 <= i
      invariant i <= p.totalParcelas || i == 0
      invariant out == Partes(p)[..i]
    {
      var valor := p.valorParcela;
      if i == 0 {
        valor := valor + residuo;
      }
      out := out + [Lancamento(i + 1, AddMonthsClamped(p.primeira, i), valor)];
      i := i + 1;
    }
  }

  function Soma(s: seq<Lancamento>): int {
    Somar(s, (l: Lancamento) => l.valor)
  }

  function GerarParcelas(p: Parcelamento): seq<Lancamento>
    requires TaxaOk(p.financiamento)
  {
    var cron := CronogramaDoPlano(p);
    if p.jaPagas <= 0 then cron else if p.jaPagas >= |cron| then [] else cron[p.jaPagas..]
  }

  function ValorJaPagoSpec(p: Parcelamento): int
    requires TaxaOk(p.financiamento)
  {
    var cron := CronogramaDoPlano(p);
    if p.jaPagas <= 0 then 0 else Soma(cron[..Min(p.jaPagas, |cron|)])
  }

  method ValorJaPago(p: Parcelamento) returns (total: int)
    requires TaxaOk(p.financiamento)
    ensures total == ValorJaPagoSpec(p)
  {
    if p.jaPagas <= 0 {
      return 0;
    }
    var cron := CronogramaCompleto(p);
    total := SomarPrimeiras(cron, p.jaPagas);
  }

  method SomarPrimeiras(cron: seq<Lancamento>, n: int) returns (total: int)
    requires n > 0
    ensures total == Soma(cron[..Min(n, |cron|)])
  {
    total := 0;
    var i := 0;
    while i < n && i < |cron|
      invariant 0 <= i <= Min(n, |cron|)
      invariant total == Soma(cron[..i])
    {
      assert cron[..i + 1][..i] == cron[..i];
      total := total + cron[i].valor;
      i := i + 1;
    }
  }

  // ----- what a freshly built plan generates -----

  lemma {:induction false} SumOfConcat(a: seq<Lancamento>, b: seq<Lancamento>)
    ensures Soma(a + b) == Soma(a) + Soma(b)
  {
    if b == [] {
      assert a + b == a;
    } else {
      assert (a + b)[..|a + b| - 1] == a + b[..|b| - 1];
      SumOfConcat(a, b[..|b| - 1]);
    }
  }

  lemma SumOfOne(l: Lancamento)
    ensures Soma([l]) == l.valor
  {
    SumOfSingle(l, (x: Lancamento) => x.valor);
  }

  lemma {:induction false} SumOfTable(r: seq<ParcelaProjetada>)
    ensures Soma(DaTabela(r)) == SomaValor(r)
  {
    if r != [] {
      SumOfTable(r[1..]);
      assert DaTabela(r) == [DaTabela(r)[0]] + DaTabela(r[1..]);
      SumOfConcat([DaTabela(r)[0]], DaTabela(r[1..]));
      SumOfOne(DaTabela(r)[0]);
    }
  }

  /** The contract: numbered and dated month by month, adding up to the plan's total. */
  predicate CronogramaFiel(p: Parcelamento)
    requires TaxaOk(p.financiamento)
  {
    var s := CronogramaDoPlano(p);
    && |s| == p.totalParcelas
    && Soma(s) == p.valorTotal
    && forall j :: 0 <= j < |s| ==> s[j].numero == j + 1 && s[j].data == AddMonthsClamped(p.primeira, j)
  }

  /** Rebuilding the table from the plan as created gives the rows it was created with, although a
      contract with extra payments has fewer instalments than it was signed for. */
  lemma RebuiltScheduleIsTheContract(e: Entrada, c: Contrato)
    requires TaxaOk(e.financiamento) && e.financiamento == Algo(c) && NewParcelamentoSpec(e).Ok?
    ensures var p := NewParcelamentoSpec(e).valor;
            CronogramaDoPlano(p)
            == DaTabela(CronogramaSpec(c.(prazo := e.totalParcelas), e.totalParcelas, e.primeira).linhas)
  {
  }

  lemma FinancedScheduleIsFaithful(e: Entrada, c: Contrato)
    requires TaxaOk(e.financiamento) && e.financiamento == Algo(c) && NewParcelamentoSpec(e).Ok?
    ensures CronogramaFiel(NewParcelamentoSpec(e).valor)
  {
    var fin := c.(prazo := e.totalParcelas);
    var r := CronogramaSpec(fin, e.totalParcelas, e.primeira).linhas;
    RebuiltScheduleIsTheContract(e, c);
    ScheduleConserves(fin, e.totalParcelas, e.primeira);
    SumOfTable(r);
    forall j | 0 <= j < |r|
      ensures r[j].numero == j + 1 && r[j].data == AddMonthsClamped(e.primeira, j)
    {
      ConsistentRows(r, 0, e.primeira, c.valor, j);
    }
  }

  lemma PlainScheduleIsFaithful(p: Parcelamento)
    requires p.financiamento.Nada? && p.totalParcelas >= 1
    ensures CronogramaFiel(p)
  {
    SumOfParts(Partes(p), (l: Lancamento) => l.valor, p.valorParcela, p.valorTotal - p.valorParcela * p.totalParcelas);
  }

  lemma ScheduleIsFaithful(e: Entrada)
    requires TaxaOk(e.financiamento) && NewParcelamentoSpec(e).Ok?
    ensures var p := NewParcelamentoSpec(e).valor;
            && TaxaOk(p.financiamento) && CronogramaFiel(p) && 0 <= p.jaPagas < p.totalParcelas <= e.totalParcelas
  {
    if e.financiamento.Algo? {
      FinancedScheduleIsFaithful(e, e.financiamento.valor);
      ScheduleConserves(e.financiamento.valor.(prazo := e.totalParcelas), e.totalParcelas, e.primeira);
    } else {
      PlainScheduleIsFaithful(NewParcelamentoSpec(e).valor);
    }
  }

  /** The instalments left after the ones already paid, with the contract's numbers and months. */
  predicate Numeradas(p: Parcelamento, g: seq<Lancamento>) {
    |g| + p.jaPagas == p.totalParcelas
    && forall j :: 0 <= j < |g| ==>
         g[j].numero == p.jaPagas + j + 1 && g[j].data == AddMonthsClamped(p.primeira, p.jaPagas + j)
  }

  /** What the plan generates and what was paid before make up its total. */
  predicate PlanoGerado(p: Parcelamento)
    requires TaxaOk(p.financiamento)
  {
    && 0 <= p.jaPagas < p.totalParcelas
    && Soma(GerarParcelas(p)) + ValorJaPagoSpec(p) == p.valorTotal
    && Numeradas(p, GerarParcelas(p))
  }

  /** Whatever the kind of plan, what it generates and what was already paid make up its total, and
      the generated instalments keep the contract's numbers and months. */
  lemma GeneratedPlusPaidIsTotal(e: Entrada)
    requires TaxaOk(e.financiamento) && NewParcelamentoSpec(e).Ok?
    ensures TaxaOk(NewParcelamentoSpec(e).valor.financiamento) && PlanoGerado(NewParcelamentoSpec(e).valor)
  {
    ScheduleIsFaithful(e);
    FaithfulParts(NewParcelamentoSpec(e).valor);
  }

  lemma GeneratedIsTheRest(p: Parcelamento)
    requires TaxaOk(p.financiamento) && CronogramaFiel(p) && 0 <= p.jaPagas < p.totalParcelas
    ensures GerarParcelas(p) == CronogramaDoPlano(p)[p.jaPagas..]
    ensures ValorJaPagoSpec(p) == Soma(CronogramaDoPlano(p)[..p.jaPagas])
  {
    assert CronogramaDoPlano(p)[0..] == CronogramaDoPlano(p);
  }

  lemma FaithfulParts(p: Parcelamento)
    requires TaxaOk(p.financiamento) && CronogramaFiel(p) && 0 <= p.jaPagas < p.totalParcelas
    ensures Soma(GerarParcelas(p)) + ValorJaPagoSpec(p) == p.valorTotal
    ensures Numeradas(p, GerarParcelas(p))
  {
    GeneratedIsTheRest(p);
    SplitSum(CronogramaDoPlano(p), p.jaPagas);
    RestKeepsNumbers(p, CronogramaDoPlano(p));
  }

  lemma SplitSum(s: seq<Lancamento>, k: nat)
    requires k <= |s|
    ensures Soma(s[..k]) + Soma(s[k..]) == Soma(s)
  {
    assert s == s[..k] + s[k..];
    SumOfConcat(s[..k], s[k..]);
  }

  lemma RestKeepsNumbers(p: Parcelamento, s: seq<Lancamento>)
    requires |s| == p.totalParcelas && 0 <= p.jaPagas < p.totalParcelas
    requires forall j :: 0 <= j < |s| ==> s[j].numero == j + 1 && s[j].data == AddMonthsClamped(p.primeira, j)
    ensures Numeradas(p, s[p.jaPagas..])
  {
  }

  // ----- progress -----

  datatype Andamento = Andamento(pagas: int, restantes: int, valorPago: int, valorRestante: int, proxima: Opcao<Data>)

  /** The earlier of two dates, where none counts as never. */
  function MaisCedo(a: Opcao<Data>, d: Data): Opcao<Data> {
    if a.Nada? || Antes(d, a.valor) then Algo(d) else a
  }

  /** One instalment added to the tally: due up to today it counts as paid. */
  function Contar(a: Andamento, l: Lancamento, hoje: Data): Andamento {
    if !Antes(hoje, l.data) then a.(pagas := a.pagas + 1, valorPago := a.valorPago + l.valor)
    else a.(restantes := a.restantes + 1, valorRestante := a.valorRestante + l.valor,
            proxima := MaisCedo(a.proxima, l.data))
  }

  function CalcularProgressoSpec(s: seq<Lancamento>, hoje: Data): Andamento {
    if s == [] then Andamento(0, 0, 0, 0, Nada)
    else Contar(CalcularProgressoSpec(s[..|s| - 1], hoje), s[|s| - 1], hoje)
  }

  function AplicarJaPagasSpec(p: Parcelamento, a: Andamento): Andamento
    requires TaxaOk(p.financiamento)
  {
    SomarJaPagas(a, p.jaPagas, ValorJaPagoSpec(p))
  }

  function SomarJaPagas(a: Andamento, jaPagas: int, jaPago: int): Andamento {
    if jaPagas <= 0 then a else a.(pagas := a.pagas + jaPagas, valorPago := a.valorPago + jaPago)
  }

  function ProgressoEmSpec(p: Parcelamento, s: seq<Lancamento>, hoje: Data): Andamento
    requires TaxaOk(p.financiamento)
  {
    AplicarJaPagasSpec(p, CalcularProgressoSpec(s, hoje))
  }

  class Progresso {
    var pagas: int
    var restantes: int
    var valorPago: int
    var valorRestante: int
    var proxima: Opcao<Data>

    function Valor(): Andamento
      reads this
    {
      Andamento(pagas, restantes, valorPago, valorRestante, proxima)
    }

    constructor ()
      ensures Valor() == Andamento(0, 0, 0, 0, Nada)
    {
      pagas, restantes, valorPago, valorRestante, proxima := 0, 0, 0, 0, Nada;
    }

    method AplicarJaPagas(p: Parcelamento)
      requires TaxaOk(p.financiamento)
      modifies this
      ensures Valor() == AplicarJaPagasSpec(p, old(Valor()))
    {
      if p.jaPagas <= 0 {
        return;
      }
      pagas := pagas + p.jaPagas;
      var jaPago := ValorJaPago(p);
      valorPago := valorPago + jaPago;
    }
  }

  method CalcularProgresso(parcelas: seq<Lancamento>, hoje: Data) returns (pr: Progresso)
    ensures fresh(pr) && pr.Valor() == CalcularProgressoSpec(parcelas, hoje)
  {
    pr := new Progresso();
    var i := 0;
    while i < |parcelas|
      invariant 0 <= i <= |parcelas| && fresh(pr)
      invariant pr.Valor() == CalcularProgressoSpec(parcelas[..i], hoje)
    {
      var d := parcelas[i].data;
      assert parcelas[..i + 1][..i] == parcelas[..i];
      i := i + 1;
      if !Antes(hoje, d) {
        pr.pagas := pr.pagas + 1;
        pr.valorPago := pr.valorPago + parcelas[i - 1].valor;
        continue;
      }
      pr.restantes := pr.restantes + 1;
      pr.valorRestante := pr.valorRestante + parcelas[i - 1].valor;
      if pr.proxima.Nada? || Antes(d, pr.proxima.valor) {
        pr.proxima := Algo(d);
      }
    }
    assert parcelas[..i] == parcelas;
  }

  method ProgressoEm(p: Parcelamento, parcelas: seq<Lancamento>, hoje: Data) returns (pr: Progresso)
    requires TaxaOk(p.financiamento)
    ensures fresh(pr) && pr.Valor() == ProgressoEmSpec(p, parcelas, hoje)
  {
    pr := CalcularProgresso(parcelas, hoje);
    pr.AplicarJaPagas(p);
  }

  /** SELECT ... FILTER (WHERE data_transacao <= hoje), and its complement. */
  function Vencidas(s: seq<Lancamento>, hoje: Data): seq<Lancamento> {
    Filtrar(s, (l: Lancamento) => !Antes(hoje, l.data))
  }

  function AVencer(s: seq<Lancamento>, hoje: Data): seq<Lancamento> {
    Filtrar(s, (l: Lancamento) => Antes(hoje, l.data))
  }

  /** min(data_transacao) */
  function MenorData(s: seq<Lancamento>): Opcao<Data> {
    if s == [] then Nada else MaisCedo(MenorData(s[..|s| - 1]), s[|s| - 1].data)
  }

  /** The five aggregates ParcelamentoRepository.List selects. */
  function AgregadosSQL(s: seq<Lancamento>, hoje: Data): Andamento {
    var ate, apos := Vencidas(s, hoje), AVencer(s, hoje);
    Andamento(|ate|, |apos|, Soma(ate), Soma(apos), MenorData(apos))
  }

  lemma SumOfAppend(s: seq<Lancamento>, l: Lancamento)
    ensures Soma(s + [l]) == Soma(s) + l.valor
    ensures MenorData(s + [l]) == MaisCedo(MenorData(s), l.data)
  {
    assert (s + [l])[..|s|] == s;
  }

  /** The repository's aggregates are the service's loop. */
  lemma {:induction false} AggregatesAreTheLoop(s: seq<Lancamento>, hoje: Data)
    ensures AgregadosSQL(s, hoje) == CalcularProgressoSpec(s, hoje)
  {
    if s != [] {
      var t, l := s[..|s| - 1], s[|s| - 1];
      AggregatesAreTheLoop(t, hoje);
      if Antes(hoje, l.data) {
        SumOfAppend(AVencer(t, hoje), l);
        assert Vencidas(t, hoje) + [] == Vencidas(t, hoje);
      } else {
        SumOfAppend(Vencidas(t, hoje), l);
        assert AVencer(t, hoje) + [] == AVencer(t, hoje);
      }
    }
  }

  /** What List shows for a plan is what Get computes from the same stored rows. */
  lemma ListAgreesWithGet(p: Parcelamento, s: seq<Lancamento>, hoje: Data)
    requires TaxaOk(p.financiamento)
    ensures AplicarJaPagasSpec(p, AgregadosSQL(s, hoje)) == ProgressoEmSpec(p, s, hoje)
  {
    AggregatesAreTheLoop(s, hoje);
  }

  lemma {:induction false} TallyIsComplete(s: seq<Lancamento>, hoje: Data)
    ensures var a := CalcularProgressoSpec(s, hoje);
            && a.pagas + a.restantes == |s| && a.pagas >= 0 && a.restantes >= 0
            && a.valorPago + a.valorRestante == Soma(s)
  {
    if s != [] {
      TallyIsComplete(s[..|s| - 1], hoje);
    }
  }

  /** Instalments in strictly increasing date order. */
  predicate EmOrdem(s: seq<Lancamento>) {
    forall i, j :: 0 <= i < j < |s| ==> Antes(s[i].data, s[j].data)
  }

  /** In date order the paid instalments come first, and the next one due is the one after them. */
  lemma {:induction false} PaidComeFirst(s: seq<Lancamento>, hoje: Data)
    requires EmOrdem(s)
    ensures var a := CalcularProgressoSpec(s, hoje);
            && 0 <= a.pagas <= |s|
            && (forall i :: 0 <= i < |s| ==> (Antes(hoje, s[i].data) <==> a.pagas <= i))
            && a.proxima == if a.pagas < |s| then Algo(s[a.pagas].data) else Nada
  {
    if s != [] {
      var t := s[..|s| - 1];
      PaidComeFirst(t, hoje);
      TallyIsComplete(t, hoje);
    }
  }

  lemma NumberedAreInOrder(p: Parcelamento, g: seq<Lancamento>)
    requires Numeradas(p, g) && Valida(p.primeira)
    ensures EmOrdem(g)
  {
    forall i, j | 0 <= i < j < |g|
      ensures Antes(g[i].data, g[j].data)
    {
      LaterMonthsAreLater(p.primeira, p.jaPagas + i, p.jaPagas + j);
    }
  }

  /** Counts that make up the plan's instalments and amounts that make up its total; the next
      instalment is the earliest of g still after today, and there is one unless none is left. */
  predicate ProgressoFiel(p: Parcelamento, g: seq<Lancamento>, hoje: Data, a: Andamento) {
    var k := a.pagas - p.jaPagas;
    && a.pagas + a.restantes == p.totalParcelas && a.valorPago + a.valorRestante == p.valorTotal
    && 0 <= k <= |g|
    && (forall i :: 0 <= i < |g| ==> (Antes(hoje, g[i].data) <==> k <= i))
    && a.proxima == if k < |g| then Algo(g[k].data) else Nada
  }

  /** What Get shows right after the plan's instalments are stored. */
  predicate ProgressoCerto(p: Parcelamento, hoje: Data)
    requires TaxaOk(p.financiamento)
  {
    ProgressoFiel(p, GerarParcelas(p), hoje, ProgressoEmSpec(p, GerarParcelas(p), hoje))
  }

  /** On a freshly generated plan, for any today, progress adds up to the plan. */
  lemma ProgressConserves(e: Entrada, hoje: Data)
    requires TaxaOk(e.financiamento) && NewParcelamentoSpec(e).Ok? && Valida(e.primeira)
    ensures TaxaOk(NewParcelamentoSpec(e).valor.financiamento) && ProgressoCerto(NewParcelamentoSpec(e).valor, hoje)
  {
    GeneratedPlusPaidIsTotal(e);
    KeepsFirstMonth(e);
    ProgressOfPlan(NewParcelamentoSpec(e).valor, hoje);
  }

  lemma ProgressOfPlan(p: Parcelamento, hoje: Data)
    requires TaxaOk(p.financiamento) && Valida(p.primeira) && PlanoGerado(p)
    ensures ProgressoCerto(p, hoje)
  {
    NumberedAreInOrder(p, GerarParcelas(p));
    ProgressOf(p, GerarParcelas(p), hoje);
  }

  lemma KeepsFirstMonth(e: Entrada)
    requires TaxaOk(e.financiamento) && NewParcelamentoSpec(e).Ok?
    ensures NewParcelamentoSpec(e).valor.primeira == e.primeira
  {
  }

  lemma ProgressOf(p: Parcelamento, g: seq<Lancamento>, hoje: Data)
    requires TaxaOk(p.financiamento) && EmOrdem(g) && p.jaPagas >= 0 && |g| + p.jaPagas == p.totalParcelas
    requires Soma(g) + ValorJaPagoSpec(p) == p.valorTotal
    ensures ProgressoFiel(p, g, hoje, ProgressoEmSpec(p, g, hoje))
  {
    assert p.jaPagas == 0 ==> ValorJaPagoSpec(p) == 0;
    ProgressWith(p, g, hoje, ValorJaPagoSpec(p));
  }

  lemma ProgressWith(p: Parcelamento, g: seq<Lancamento>, hoje: Data, jaPago: int)
    requires EmOrdem(g) && p.jaPagas >= 0 && |g| + p.jaPagas == p.totalParcelas
    requires Soma(g) + jaPago == p.valorTotal && (p.jaPagas == 0 ==> jaPago == 0)
    ensures ProgressoFiel(p, g, hoje, SomarJaPagas(CalcularProgressoSpec(g, hoje), p.jaPagas, jaPago))
  {
    TallyIsComplete(g, hoje);
    PaidComeFirst(g, hoje);
  }

  /** Time only moves instalments from due to paid. */
  lemma {:induction false} PaidGrowWithTime(s: seq<Lancamento>, hoje: Data, amanha: Data)
    requires AteOuIgual(hoje, amanha)
    ensures CalcularProgressoSpec(s, hoje).pagas <= CalcularProgressoSpec(s, amanha).pagas
    ensures CalcularProgressoSpec(s, hoje).restantes >= CalcularProgressoSpec(s, amanha).restantes
  {
    if s != [] {
      PaidGrowWithTime(s[..|s| - 1], hoje, amanha);
    }
  }

  // ----- Simular -----

  datatype Comparativo = Comparativo(totalParcelas: int, totalAPagar: int, totalJuros: int)

  datatype Simulacao = Simulacao(parcelas: seq<ParcelaProjetada>, totalAPagar: int, totalJuros: int,
                                 semAporte: Opcao<Comparativo>)

  /** ParcelamentoService.Simular: with an extra payment, the same contract is projected without it,
      and the comparison always comes out in favour of the extra payment. */
  method Simular(c: Contrato, totalParcelas: int, primeira: Data) returns (r: Resultado<Simulacao, Erro>)
    requires c.taxa >= 0.0
    ensures r.Ok? <==> Validate(c).Nada? && 1 <= totalParcelas <= MAX_PARCELAS && totalParcelas <= c.valor
    ensures r.Ok? ==>
              var s := r.valor;
              && CronogramaSpec(c.(prazo := totalParcelas), totalParcelas, primeira) == Tabela(s.parcelas)
              && s.totalAPagar == SomaValor(s.parcelas) && s.totalJuros == SomaJuros(s.parcelas)
              && s.totalAPagar == c.valor + s.totalJuros
              && (s.semAporte.Algo? <==> c.extra > 0)
    ensures r.Ok? && r.valor.semAporte.Algo? ==>
              var s, b := r.valor, r.valor.semAporte.valor;
              && |s.parcelas| <= b.totalParcelas <= totalParcelas
              && s.totalJuros <= b.totalJuros
              && s.totalAPagar <= b.totalAPagar == c.valor + b.totalJuros
  {
    if Validate(c).Algo? {
      return Err(Validate(c).valor);
    }
    var fin := c.(prazo := totalParcelas);
    ScheduleAlwaysExists(fin, totalParcelas, primeira);
    var t := Cronograma(fin, totalParcelas, primeira);
    if t.Recusada? {
      return Err(t.erro);
    }
    var total, juros := TotaisCronograma(t.linhas);
    ScheduleConserves(fin, totalParcelas, primeira);
    var semAporte := Nada;
    if fin.extra > 0 {
      var base := fin.(extra := 0);
      ScheduleAlwaysExists(base, totalParcelas, primeira);
      var u := Cronograma(base, totalParcelas, primeira);
      if u.Tabela? {
        var totalBase, jurosBase := TotaisCronograma(u.linhas);
        semAporte := Algo(Comparativo(|u.linhas|, totalBase, jurosBase));
        MoreExtraNeverCostsMore(base, fin.extra, totalParcelas, primeira);
        assert base.(extra := fin.extra) == fin;
        ScheduleConserves(base, totalParcelas, primeira);
      }
    }
    return Ok(Simulacao(t.linhas, total, juros, semAporte));
  }
}
