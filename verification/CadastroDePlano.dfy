/** Registering an instalment plan from its form (internal/core/domain/parcelamento.go,
    internal/core/domain/financiamento.go), and reading its contract back from the database
    (internal/adapters/db/postgres/parcelamento_repository.go). */
module CadastroDePlano {
  import opened Comum
  import opened Texto
  import opened Centavos
  import opened Calendario
  import opened Financiamento
  import opened Amortizacao
  import opened FormaDaTabela
  import opened Parcelamento

  /** The contract as it is filled in: the rate is yearly, in percent. */
  datatype FormularioContrato = FormularioContrato(banco: string, sistema: string, valor: int, taxaAnual: real,
                                                   tipoTaxa: string, extra: int)

  /** `primeira` is missing when the date is the zero time. */
  datatype Formulario = Formulario(usuario: string, tipo: string, descricao: string, valorTotal: int, valorParcela: int,
                                   totalParcelas: int, primeira: Opcao<Data>, jaPagas: int,
                                   financiamento: Opcao<FormularioContrato>)

  /** From the yearly percentage and whether it is nominal to the monthly rate: TaxaMensal. */
  type Conversao = (real, bool) -> real

  ghost predicate EhConversao(mensal: Conversao) {
    forall a: real, n: bool :: EhTaxaMensal(a, n, mensal(a, n))
  }

  // ----- registering -----

  /** What Validate checks before the extra payment and NewParcelamento's own limits. */
  function ErroDoFormulario(f: FormularioContrato): Opcao<Erro> {
    if |Normalizado(f.banco)| > 120 then Algo(BancoLongo)
    else if f.sistema !in {"", "price", "sac"} then Algo(SistemaInvalido)
    else if f.tipoTaxa !in {"", "efetiva", "nominal"} then Algo(TipoTaxaInvalido)
    else if f.valor <= 0 || f.valor > MAX_MONEY then Algo(ValorInvalido)
    else if f.taxaAnual < 0.0 || f.taxaAnual > 100.0 then Algo(TaxaInvalida)
    else Nada
  }

  function ContratoDe(mensal: Conversao, f: FormularioContrato): Contrato {
    Contrato(if f.sistema == "price" then Price else SAC, f.valor, mensal(f.taxaAnual, f.tipoTaxa == "nominal"),
             f.extra, 0)
  }

  function EntradaDe(mensal: Conversao, f: Formulario): Entrada
    requires f.primeira.Algo?
  {
    Entrada(if f.tipo == "recorrente" then Recorrente else Parcelado, f.valorTotal, f.valorParcela, f.totalParcelas,
            f.primeira.valor, f.jaPagas,
            if f.financiamento.Nada? then Nada else Algo(ContratoDe(mensal, f.financiamento.valor)))
  }

  lemma RateIsNotNegative(mensal: Conversao, f: Formulario)
    requires EhConversao(mensal) && f.primeira.Algo?
    ensures TaxaOk(EntradaDe(mensal, f).financiamento)
  {
    if f.financiamento.Algo? {
      var c := f.financiamento.valor;
      assert EhTaxaMensal(c.taxaAnual, c.tipoTaxa == "nominal", mensal(c.taxaAnual, c.tipoTaxa == "nominal"));
    }
  }

  /** The contract's form is looked at once the counts and the kind of plan have passed. */
  predicate ContratoRecusado(f: Formulario) {
    f.financiamento.Algo? && 0 <= f.jaPagas < f.totalParcelas && f.tipo != "recorrente"
    && ErroDoFormulario(f.financiamento.valor).Algo?
  }

  ghost function CadastrarSpec(mensal: Conversao, f: Formulario): Criado
    requires EhConversao(mensal)
  {
    if EmBranco(f.usuario) then Err(UsuarioObrigatorio)
    else if f.tipo !in {"", "parcelado", "recorrente"} then Err(TipoInvalido)
    else if |Normalizado(f.descricao)| < 1 || |Normalizado(f.descricao)| > 255 then Err(DescricaoInvalida)
    else if f.totalParcelas < 1 || f.totalParcelas > MAX_PARCELAS then Err(NumeroDeParcelas)
    else if f.primeira.Nada? then Err(DataObrigatoria)
    else if ContratoRecusado(f) then Err(Contratual(ErroDoFormulario(f.financiamento.valor).valor))
    else
      RateIsNotNegative(mensal, f);
      NewParcelamentoSpec(EntradaDe(mensal, f))
  }

  method Cadastrar(mensal: Conversao, f: Formulario) returns (r: Criado)
    requires EhConversao(mensal)
    ensures r == CadastrarSpec(mensal, f)
  {
    if EmBranco(f.usuario) {
      return Err(UsuarioObrigatorio);
    }
    var tipo := f.tipo;
    if tipo == "" {
      tipo := "parcelado";
    }
    if tipo != "parcelado" && tipo != "recorrente" {
      return Err(TipoInvalido);
    }
    var n := |Normalizado(f.descricao)|;
    if n < 1 || n > 255 {
      return Err(DescricaoInvalida);
    }
    if f.totalParcelas < 1 || f.totalParcelas > MAX_PARCELAS {
      return Err(NumeroDeParcelas);
    }
    if f.primeira.Nada? {
      return Err(DataObrigatoria);
    }
    if f.jaPagas < 0 {
      return Err(JaPagasNegativo);
    }
    if f.jaPagas >= f.totalParcelas {
      return Err(JaPagasDemais);
    }
    if f.financiamento.Algo? {
      if tipo != "parcelado" {
        return Err(TipoSemFinanciamento);
      }
      var e := ErroDoFormulario(f.financiamento.valor);
      if e.Algo? {
        return Err(Contratual(e.valor));
      }
    }
    RateIsNotNegative(mensal, f);
    r := NewParcelamento(EntradaDe(mensal, f));
  }

  // ----- storing it -----

  /** The descriptions of the instalments after the first `jaPagas` of n fit their column. */
  predicate CabemNaColuna(descricao: string, jaPagas: nat, n: nat) {
    forall i :: jaPagas + 1 <= i <= n ==> |ComNumero(Normalizado(descricao), i, n)| <= LARGURA_DESCRICAO
  }

  /** ParcelamentoService.Create: the plan and its instalments are stored together or not at all. */
  ghost predicate Gravavel(mensal: Conversao, f: Formulario)
    requires EhConversao(mensal)
  {
    var r := CadastrarSpec(mensal, f);
    r.Ok? && 0 <= r.valor.jaPagas && 0 <= r.valor.totalParcelas
    && CabemNaColuna(f.descricao, r.valor.jaPagas, r.valor.totalParcelas)
  }

  /** A plan the domain accepts is stored exactly when its description leaves room for the number of its
      last instalment. */
  lemma StoredIff(mensal: Conversao, f: Formulario)
    requires EhConversao(mensal) && CadastrarSpec(mensal, f).Ok?
    ensures var n := CadastrarSpec(mensal, f).valor.totalParcelas;
            && 1 <= n <= MAX_PARCELAS
            && (Gravavel(mensal, f) <==> |Normalizado(f.descricao)| + 4 + 2 * Algarismos(n) <= LARGURA_DESCRICAO)
  {
    var e := CreatedFromEntry(mensal, f);
    ScheduleIsFaithful(e);
    var p := CadastrarSpec(mensal, f).valor;
    NumberedFitIff(Normalizado(f.descricao), p.jaPagas + 1, p.totalParcelas);
  }

  // ----- the rate as the database keeps it -----

  /** NUMERIC(7,4): a non-negative rate rounded half up to four decimals. */
  function Numeric74(a: real): real {
    (a * 10000.0 + 0.5).Floor as real / 10000.0
  }

  /** A whole number of ten-thousandths. */
  predicate QuatroDecimais(a: real) {
    (a * 10000.0).Floor as real == a * 10000.0
  }

  lemma StoredExactlyIff(a: real)
    ensures Numeric74(a) == a <==> QuatroDecimais(a)
  {
    var x := a * 10000.0;
    assert x / 10000.0 == a;
    WholeNumberRounds(x);
  }

  /** What is stored is the nearest number of ten-thousandths, the upper one from the middle on. */
  lemma StoredIsNearest(a: real)
    ensures QuatroDecimais(Numeric74(a)) && a - 0.00005 < Numeric74(a) <= a + 0.00005
  {
    var n := (a * 10000.0 + 0.5).Floor;
    assert n as real / 10000.0 * 10000.0 == n as real;
    assert (n as real).Floor == n;
  }

  lemma WholeNumberRounds(x: real)
    ensures (x + 0.5).Floor as real == x <==> x.Floor as real == x
  {
    if x.Floor as real == x {
      FloorAndHalf(x.Floor);
    }
    if (x + 0.5).Floor as real == x {
      FloorAndHalf((x + 0.5).Floor);
    }
  }

  lemma FloorAndHalf(n: int)
    ensures (n as real + 0.5).Floor == n && (n as real).Floor == n
  {}

  /** The plan FindByID and List load: as created, but for the rate, which was rounded on the way. */
  function Recarregado(mensal: Conversao, f: Formulario, p: Parcelamento): Parcelamento {
    if p.financiamento.Nada? || f.financiamento.Nada? then p
    else
      var c := f.financiamento.valor;
      p.(financiamento := Algo(p.financiamento.valor.(taxa := mensal(Numeric74(c.taxaAnual), c.tipoTaxa == "nominal"))))
  }

  /** Two yearly rates never give the same monthly one. */
  lemma RatesAreDistinct(mensal: Conversao, a: real, b: real, nominal: bool)
    requires EhConversao(mensal) && a >= 0.0 && b >= 0.0 && mensal(a, nominal) == mensal(b, nominal)
    ensures a == b
  {
    assert EhTaxaMensal(a, nominal, mensal(a, nominal)) && EhTaxaMensal(b, nominal, mensal(b, nominal));
    NoRateNoInterest(a, nominal, mensal(a, nominal));
    NoRateNoInterest(b, nominal, mensal(b, nominal));
  }

  lemma NoRateNoInterest(a: real, nominal: bool, i: real)
    requires a >= 0.0 && EhTaxaMensal(a, nominal, i)
    ensures i == 0.0 <==> a == 0.0
  {
    if a > 0.0 && !nominal && i == 0.0 {
      PowerOfOne(1.0 + i, 12);
    }
  }

  lemma {:induction false} PowerOfOne(b: real, n: nat)
    requires b == 1.0
    ensures Pot(b, n) == 1.0
  {
    if n > 0 {
      PowerOfOne(b, n - 1);
    }
  }

  lemma RoundedRateIsNotNegative(a: real)
    requires a >= 0.0
    ensures Numeric74(a) >= 0.0
  {
    assert (a * 10000.0 + 0.5).Floor >= 0;
  }

  lemma AcceptedRate(mensal: Conversao, f: Formulario)
    requires EhConversao(mensal) && CadastrarSpec(mensal, f).Ok? && f.financiamento.Algo?
    ensures CadastrarSpec(mensal, f).valor.financiamento.Algo?
    ensures var c := f.financiamento.valor;
            c.taxaAnual >= 0.0
            && CadastrarSpec(mensal, f).valor.financiamento.valor.taxa == mensal(c.taxaAnual, c.tipoTaxa == "nominal")
  {
    RateIsNotNegative(mensal, f);
  }

  /** A plan comes back from the database as it was created exactly when its yearly rate has no more
      than four decimals. */
  lemma ReloadIsIdentityIff(mensal: Conversao, f: Formulario)
    requires EhConversao(mensal) && CadastrarSpec(mensal, f).Ok?
    ensures var p := CadastrarSpec(mensal, f).valor;
            Recarregado(mensal, f, p) == p <==> f.financiamento.Nada? || QuatroDecimais(f.financiamento.valor.taxaAnual)
  {
    var p := CadastrarSpec(mensal, f).valor;
    if f.financiamento.Algo? {
      var a, nominal := f.financiamento.valor.taxaAnual, f.financiamento.valor.tipoTaxa == "nominal";
      AcceptedRate(mensal, f);
      StoredExactlyIff(a);
      RoundedRateIsNotNegative(a);
      if mensal(Numeric74(a), nominal) == mensal(a, nominal) {
        RatesAreDistinct(mensal, Numeric74(a), a, nominal);
      }
      SameRateSamePlan(p, mensal(Numeric74(a), nominal));
    }
  }

  lemma SameRateSamePlan(p: Parcelamento, taxa: real)
    requires p.financiamento.Algo?
    ensures p.(financiamento := Algo(p.financiamento.valor.(taxa := taxa))) == p <==> taxa == p.financiamento.valor.taxa
  {}

  lemma CreatedFromEntry(mensal: Conversao, f: Formulario) returns (e: Entrada)
    requires EhConversao(mensal) && CadastrarSpec(mensal, f).Ok?
    ensures TaxaOk(e.financiamento) && NewParcelamentoSpec(e) == CadastrarSpec(mensal, f)
    ensures f.primeira == Algo(e.primeira)
  {
    RateIsNotNegative(mensal, f);
    e := EntradaDe(mensal, f);
  }

  /** For a plan whose rate has at most four decimals, the progress computed from what the database
      holds, the stored contract and the stored instalments, adds up to the plan on any day. */
  lemma StoredPlanConserves(mensal: Conversao, f: Formulario, hoje: Data)
    requires EhConversao(mensal) && CadastrarSpec(mensal, f).Ok? && Valida(f.primeira.valor)
    requires f.financiamento.Algo? ==> QuatroDecimais(f.financiamento.valor.taxaAnual)
    ensures var p := CadastrarSpec(mensal, f).valor;
            var q := Recarregado(mensal, f, p);
            && TaxaOk(p.financiamento) && TaxaOk(q.financiamento) && CronogramaDoPlano(q) == CronogramaDoPlano(p)
            && ProgressoFiel(p, GerarParcelas(p), hoje, ProgressoEmSpec(q, GerarParcelas(p), hoje))
  {
    var e := CreatedFromEntry(mensal, f);
    ReloadIsIdentityIff(mensal, f);
    ScheduleIsFaithful(e);
    ProgressConserves(e, hoje);
  }

  // ----- a rate with five decimals -----

  /** R$ 120 million over two months in SAC at a nominal 8.66666% a year, one instalment already paid:
      stored as 8.6667%, the contract read back says 400 cents more were paid than the plan was made
      with, and paid plus generated no longer make its total. */
  lemma FiveDecimalsCanBreak(mensal: Conversao, f: Formulario, dia: Data)
    requires EhConversao(mensal)
    requires f == Formulario("ana", "", "casa", 0, 0, 2, Algo(dia), 1,
                             Algo(FormularioContrato("", "sac", 12_000_000_000, 8.66666, "nominal", 0)))
    ensures CadastrarSpec(mensal, f).Ok?
    ensures var p := CadastrarSpec(mensal, f).valor;
            var q := Recarregado(mensal, f, p);
            && TaxaOk(p.financiamento) && TaxaOk(q.financiamento)
            && ValorJaPagoSpec(q) == ValorJaPagoSpec(p) + 400
            && Soma(GerarParcelas(p)) + ValorJaPagoSpec(q) == p.valorTotal + 400
  {
    NominalRate(mensal, 8.66666);
    NominalRate(mensal, 8.6667);
    assert Numeric74(8.66666) == 8.6667;
    var c := Contrato(SAC, 12_000_000_000, mensal(8.66666, true), 0, 0);
    var e := FormAccepted(mensal, f, dia, c);
    TwoMonthPlan(e, c, 86_666_600);
    var p := NewParcelamentoSpec(e).valor;
    PaidOfTwo(p, c.(prazo := 2), 86_666_600);
    PaidOfTwo(Recarregado(mensal, f, p), c.(prazo := 2, taxa := mensal(8.6667, true)), 86_667_000);
    GeneratedPlusPaidIsTotal(e);
  }

  lemma FormAccepted(mensal: Conversao, f: Formulario, dia: Data, c: Contrato) returns (e: Entrada)
    requires EhConversao(mensal) && c == Contrato(SAC, 12_000_000_000, mensal(8.66666, true), 0, 0)
    requires f == Formulario("ana", "", "casa", 0, 0, 2, Algo(dia), 1,
                             Algo(FormularioContrato("", "sac", 12_000_000_000, 8.66666, "nominal", 0)))
    ensures e == Entrada(Parcelado, 0, 0, 2, dia, 1, Algo(c)) && TaxaOk(e.financiamento)
    ensures CadastrarSpec(mensal, f) == NewParcelamentoSpec(e)
  {
    ShortTexts();
    RateIsNotNegative(mensal, f);
    e := EntradaDe(mensal, f);
  }

  lemma NominalRate(mensal: Conversao, a: real)
    requires EhConversao(mensal) && a > 0.0
    ensures mensal(a, true) == a / 100.0 / 12.0
  {
    assert EhTaxaMensal(a, true, mensal(a, true));
  }

  lemma ShortTexts()
    ensures Normalizado("") == "" && 1 <= |Normalizado("casa")| <= 255 && !EmBranco("ana")
  {
    assert "casa"[..3] == "cas" && "cas"[..2] == "ca" && "ca"[..1] == "c" && "c"[..0] == "";
    assert !Espaco("ana"[0]);
  }

  predicate ExemploSAC(c: Contrato, juros: int) {
    c.sistema == SAC && c.valor == 12_000_000_000 && c.extra == 0 && c.taxa > 0.0
    && Arredonda(c.valor as real * c.taxa) == juros && 0 <= juros <= 100_000_000
  }

  /** Two months of SAC: the first pays half of V and a month's interest on all of it. */
  lemma TwoMonths(c: Contrato, juros: int, dia: Data)
    requires ExemploSAC(c, juros)
    ensures CronogramaSpec(c, 2, dia).Tabela? && |CronogramaSpec(c, 2, dia).linhas| == 2
    ensures CronogramaSpec(c, 2, dia).linhas[0].valor == 6_000_000_000 + juros
    ensures SomaJuros(CronogramaSpec(c, 2, dia).linhas) <= 2 * juros
  {
    var p := TwoMonthTerms(c, juros, dia);
    NextBalance(p, 0, c.valor);
    var s := Linha(p, 0, c.valor).saldo;
    NextBalance(p, 1, s);
    InterestIsMonotone(p, s, c.valor);
    assert Linhas(p, 2, 0) == Tabela([]);
    assert Linhas(p, 1, s) == Tabela([Linha(p, 1, s)]);
    assert Linhas(p, 0, c.valor) == Tabela([Linha(p, 0, c.valor), Linha(p, 1, s)]);
    TwoRows(Linha(p, 0, c.valor), Linha(p, 1, s));
  }

  lemma TwoMonthTerms(c: Contrato, juros: int, dia: Data) returns (p: Plano)
    requires ExemploSAC(c, juros)
    ensures PlanoOk(p) && p.n == 2 && p.base == 6_000_000_000 && p.resto == 0 && p.extra == 0
    ensures !ComJuros(p, Price) && JurosDoMes(p, c.valor) == juros
    ensures CronogramaSpec(c, 2, dia) == Linhas(p, 0, c.valor)
  {
    p := PlanoDe(c, 2, dia);
    PlanOfContract(c, 2, dia);
  }

  lemma TwoRows(a: ParcelaProjetada, b: ParcelaProjetada)
    ensures SomaJuros([a, b]) == a.juros + b.juros
  {
    var r, t := [a, b], [b];
    assert r[1..] == t && t[1..] == [];
    assert SomaJuros(t) == b.juros;
  }

  lemma TwoMonthPlan(e: Entrada, c: Contrato, juros: int)
    requires e == Entrada(Parcelado, 0, 0, 2, e.primeira, 1, Algo(c)) && ExemploSAC(c, juros)
    ensures NewParcelamentoSpec(e).Ok?
    ensures var p := NewParcelamentoSpec(e).valor;
            p.financiamento == Algo(c.(prazo := 2)) && p.jaPagas == 1 && p.primeira == e.primeira
  {
    var fin := c.(prazo := 2);
    TwoMonths(fin, juros, e.primeira);
    ScheduleConserves(fin, 2, e.primeira);
  }

  lemma PaidOfTwo(p: Parcelamento, c: Contrato, juros: int)
    requires p.financiamento == Algo(c) && c.prazo == 2 && p.jaPagas == 1 && ExemploSAC(c, juros)
    ensures TaxaOk(p.financiamento) && ValorJaPagoSpec(p) == 6_000_000_000 + juros
  {
    TwoMonths(c, juros, p.primeira);
    var cron := CronogramaDoPlano(p);
    assert |cron| == 2 && cron[0].valor == 6_000_000_000 + juros;
    FirstOnly(cron);
    assert Min(1, |cron|) == 1;
  }

  lemma FirstOnly(s: seq<Lancamento>)
    requires s != []
    ensures Soma(s[..1]) == s[0].valor
  {
    assert s[..1] == [s[0]];
    SumOfOne(s[0]);
  }
}
