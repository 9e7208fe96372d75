/** What a plan comes to, said of what was filled in: when it is accepted, its total, each instalment and the
    money its progress shows. */
module ParcelamentoRegras {
  import opened Comum
  import opened Tabelas
  import opened Texto
  import opened Calendario
  import opened Centavos
  import opened Financiamento
  import opened Amortizacao
  import opened FormaDaTabela
  import opened Parcelamento
  import opened CadastroDePlano

  // ----- plans without a contract -----

  lemma WithinQuotient(v: int, n: int, teto: int)
    requires n >= 1 && teto >= 0
    ensures v <= Quo(teto, n) <==> v * n <= teto
  {
    var q := teto / n;
    assert teto == n * q + teto % n;
    if v <= q {
      ScaleKeepsOrder(n, v, q);
    } else {
      ScaleKeepsOrder(n, q + 1, v);
    }
  }

  /** The values of a plain plan: a total divided, or a value repeated. */
  predicate ValoresOk(e: Entrada) {
    if e.tipo == Parcelado then e.totalParcelas <= e.valorTotal <= MAX_MONEY
    else 1 <= e.valorParcela && e.valorParcela * e.totalParcelas <= MAX_MONEY
  }

  /** Instalment j of a plain plan: the total in equal parts, with what the division leaves in the first, or
      the same value every month. */
  function ValorDoItem(e: Entrada, j: nat): int
    requires e.totalParcelas >= 1
  {
    if e.tipo == Recorrente then e.valorParcela
    else e.valorTotal / e.totalParcelas + if j == 0 then e.valorTotal % e.totalParcelas else 0
  }

  predicate ItensDaEntrada(e: Entrada, s: seq<Lancamento>)
    requires e.totalParcelas >= 1
  {
    |s| == e.totalParcelas
    && forall j :: 0 <= j < |s| ==> s[j] == Lancamento(j + 1, AddMonthsClamped(e.primeira, j), ValorDoItem(e, j))
  }

  /** A plan without a contract is accepted exactly when it has 1 to 420 instalments, fewer of them paid
      already and values within the limits; it then keeps what was filled in, its total is the one given or
      the value times the months, and it schedules exactly those instalments. */
  lemma PlainPlanIff(e: Entrada)
    requires e.financiamento.Nada?
    ensures var r := NewParcelamentoSpec(e);
            && (r.Ok? <==> 0 <= e.jaPagas < e.totalParcelas <= 420 && ValoresOk(e))
            && (r.Ok? ==>
                  && r.valor.tipo == e.tipo && r.valor.totalParcelas == e.totalParcelas
                  && r.valor.primeira == e.primeira && r.valor.jaPagas == e.jaPagas && r.valor.financiamento.Nada?
                  && r.valor.valorTotal == (if e.tipo == Parcelado then e.valorTotal
                                            else e.valorParcela * e.totalParcelas)
                  && ItensDaEntrada(e, CronogramaDoPlano(r.valor)))
  {
    if e.totalParcelas >= 1 {
      WithinQuotient(e.valorParcela, e.totalParcelas, MAX_MONEY);
      if e.valorTotal >= 0 {
        RestOfDivision(e.valorTotal, e.totalParcelas);
      }
    }
  }

  // ----- plans with a contract -----

  predicate ContratoOk(c: Contrato) {
    0 < c.valor <= MAX_MONEY && 0 <= c.extra <= MAX_MONEY
  }

  /** A plan with a contract is accepted exactly when it is not recurring, has 1 to 420 instalments of a cent
      or more, the contract's amounts and the sum of its table are within the limit, and fewer are paid
      already than the table has; its total is that sum and its instalments are the table's rows. */
  lemma FinancedPlanIff(e: Entrada, c: Contrato)
    requires TaxaOk(e.financiamento) && e.financiamento == Algo(c)
    ensures var r, n := NewParcelamentoSpec(e), e.totalParcelas;
            var t := CronogramaSpec(c.(prazo := n), n, e.primeira);
            && (r.Ok? <==> e.tipo == Parcelado && 1 <= n <= 420 && n <= c.valor && ContratoOk(c)
                           && t.Tabela? && SomaValor(t.linhas) <= MAX_MONEY && 0 <= e.jaPagas < |t.linhas|)
            && (r.Ok? ==>
                  && r.valor.totalParcelas == |t.linhas| && r.valor.valorTotal == SomaValor(t.linhas)
                  && r.valor.valorParcela == t.linhas[0].valor
                  && r.valor.primeira == e.primeira && r.valor.jaPagas == e.jaPagas
                  && r.valor.financiamento == Algo(c.(prazo := n))
                  && CronogramaDoPlano(r.valor) == DaTabela(t.linhas))
  {
    var n := e.totalParcelas;
    var fin := c.(prazo := n);
    ScheduleAlwaysExists(fin, n, e.primeira);
    if CronogramaSpec(fin, n, e.primeira).Tabela? {
      ScheduleConserves(fin, n, e.primeira);
    }
  }

  // ----- the form -----

  predicate ContratoConfere(f: FormularioContrato, c: Contrato) {
    && c.valor == f.valor && c.extra == f.extra
    && (c.sistema == Price <==> f.sistema == "price")
    && EhTaxaMensal(f.taxaAnual, f.tipoTaxa == "nominal", c.taxa)
  }

  /** An accepted form is the plan it says: its kind, dates and counts, and of its contract the amount, the
      extra payment, the system, SAC unless Price is asked for, and the monthly rate, of the yearly one as a
      compound rate unless it is said to be nominal. */
  lemma FormIsThePlan(mensal: Conversao, f: Formulario)
    requires EhConversao(mensal) && CadastrarSpec(mensal, f).Ok?
    ensures var p := CadastrarSpec(mensal, f).valor;
            && (p.tipo == Recorrente <==> f.tipo == "recorrente")
            && f.primeira == Algo(p.primeira) && p.jaPagas == f.jaPagas
            && (p.financiamento.Algo? <==> f.financiamento.Algo?)
            && (p.financiamento.Nada? ==>
                  p.totalParcelas == f.totalParcelas
                  && p.valorTotal == if p.tipo == Parcelado then f.valorTotal else f.valorParcela * f.totalParcelas)
            && (p.financiamento.Algo? ==>
                  p.financiamento.valor.prazo == f.totalParcelas
                  && ContratoConfere(f.financiamento.valor, p.financiamento.valor))
  {
    RateIsNotNegative(mensal, f);
    var e := EntradaDe(mensal, f);
    if f.financiamento.Algo? {
      FinancedPlanIff(e, e.financiamento.valor);
    } else {
      PlainPlanIff(e);
    }
  }

  /** What the form of a contract must say. */
  predicate ContratoPreenchido(f: FormularioContrato) {
    && |Normalizado(f.banco)| <= 120 && f.sistema in {"", "price", "sac"} && f.tipoTaxa in {"", "efetiva", "nominal"}
    && 0.0 <= f.taxaAnual <= 100.0
  }

  /** A form is accepted exactly when it names its user and a known kind of plan, has a description of 1 to
      255 characters, a date and, with a contract, a bank, a system, a kind of rate and a yearly rate within
      what is allowed, and the plan it says is accepted. */
  lemma FormIsAcceptedIff(mensal: Conversao, f: Formulario)
    requires EhConversao(mensal)
    ensures f.primeira.Algo? ==> TaxaOk(EntradaDe(mensal, f).financiamento)
    ensures CadastrarSpec(mensal, f).Ok?
            <==> && !EmBranco(f.usuario) && f.tipo in {"", "parcelado", "recorrente"}
                 && 1 <= |Normalizado(f.descricao)| <= 255 && f.primeira.Algo?
                 && (f.financiamento.Algo? ==> ContratoPreenchido(f.financiamento.valor))
                 && NewParcelamentoSpec(EntradaDe(mensal, f)).Ok?
  {
    if f.primeira.Algo? {
      RateIsNotNegative(mensal, f);
      var e := EntradaDe(mensal, f);
      if f.financiamento.Algo? {
        FinancedPlanIff(e, e.financiamento.valor);
      } else {
        PlainPlanIff(e);
      }
    }
  }

  // ----- the money in the progress -----

  lemma {:induction false} PaidValueOfPrefix(s: seq<Lancamento>, hoje: Data)
    requires EmOrdem(s)
    ensures var a := CalcularProgressoSpec(s, hoje);
            0 <= a.pagas <= |s| && a.valorPago == Soma(s[..a.pagas])
  {
    PaidComeFirst(s, hoje);
    if s != [] {
      var k := |s| - 1;
      PaidValueOfPrefix(s[..k], hoje);
      PaidComeFirst(s[..k], hoje);
      var a := CalcularProgressoSpec(s, hoje);
      if a.pagas == |s| {
        assert s[..a.pagas] == s && s[..k][..k] == s[..k];
      } else {
        assert s[..k][..a.pagas] == s[..a.pagas];
      }
    }
  }

  /** Progress a over the contract's rows s, j of them already paid: the paid ones are the first, those after
      the j-th being dated up to today, and the money shown as paid and as left is theirs and the others'. */
  predicate MostraOContrato(s: seq<Lancamento>, j: int, hoje: Data, a: Andamento) {
    && 0 <= j <= a.pagas <= |s| && a.restantes == |s| - a.pagas
    && a.valorPago == Soma(s[..a.pagas]) && a.valorRestante == Soma(s[a.pagas..])
    && forall i :: j <= i < |s| ==> (i < a.pagas <==> AteOuIgual(s[i].data, hoje))
  }

  /** What a freshly created plan shows as paid, on any today, is of the first rows of its contract. */
  lemma ProgressIsOfTheContract(e: Entrada, hoje: Data)
    requires TaxaOk(e.financiamento) && NewParcelamentoSpec(e).Ok? && Valida(e.primeira)
    ensures var p := NewParcelamentoSpec(e).valor;
            && TaxaOk(p.financiamento)
            && MostraOContrato(CronogramaDoPlano(p), p.jaPagas, hoje, ProgressoEmSpec(p, GerarParcelas(p), hoje))
  {
    ScheduleIsFaithful(e);
    KeepsFirstMonth(e);
    PlanShowsItsContract(NewParcelamentoSpec(e).valor, hoje);
  }

  lemma PlanShowsItsContract(p: Parcelamento, hoje: Data)
    requires TaxaOk(p.financiamento) && CronogramaFiel(p) && 0 <= p.jaPagas < p.totalParcelas && Valida(p.primeira)
    ensures MostraOContrato(CronogramaDoPlano(p), p.jaPagas, hoje, ProgressoEmSpec(p, GerarParcelas(p), hoje))
  {
    var s := CronogramaDoPlano(p);
    GeneratedIsTheRest(p);
    RestKeepsNumbers(p, s);
    NumberedAreInOrder(p, s[p.jaPagas..]);
    ProgressAgainst(s, p.jaPagas, ValorJaPagoSpec(p), hoje);
  }

  lemma ProgressAgainst(s: seq<Lancamento>, j: nat, jaPago: int, hoje: Data)
    requires j < |s| && EmOrdem(s[j..]) && jaPago == Soma(s[..j])
    ensures MostraOContrato(s, j, hoje, SomarJaPagas(CalcularProgressoSpec(s[j..], hoje), j, jaPago))
  {
    var b := CalcularProgressoSpec(s[j..], hoje);
    assert j == 0 ==> s[..j] == [];
    MoneyShown(s, j, hoje, b);
    DatesShown(s, j, hoje, b);
  }

  lemma MoneyShown(s: seq<Lancamento>, j: nat, hoje: Data, b: Andamento)
    requires j <= |s| && EmOrdem(s[j..]) && b == CalcularProgressoSpec(s[j..], hoje)
    ensures 0 <= b.pagas && j + b.pagas <= |s| && b.restantes == |s| - j - b.pagas
    ensures Soma(s[..j]) + b.valorPago == Soma(s[..j + b.pagas]) && b.valorRestante == Soma(s[j + b.pagas..])
  {
    var g := s[j..];
    TallyIsComplete(g, hoje);
    PaidValueOfPrefix(g, hoje);
    SplitSum(g, b.pagas);
    JoinSums(s, j, b.pagas);
  }

  lemma DatesShown(s: seq<Lancamento>, j: nat, hoje: Data, b: Andamento)
    requires j <= |s| && EmOrdem(s[j..]) && b == CalcularProgressoSpec(s[j..], hoje)
    ensures forall i :: j <= i < |s| ==> (i < j + b.pagas <==> AteOuIgual(s[i].data, hoje))
  {
    PaidComeFirst(s[j..], hoje);
    forall i | j <= i < |s|
      ensures i < j + b.pagas <==> AteOuIgual(s[i].data, hoje)
    {
      assert s[i] == s[j..][i - j];
    }
  }

  /** The first k rows after the first j, and what is left after them. */
  lemma JoinSums(s: seq<Lancamento>, j: nat, k: nat)
    requires j + k <= |s|
    ensures Soma(s[..j + k]) == Soma(s[..j]) + Soma(s[j..][..k])
    ensures Soma(s[j + k..]) == Soma(s[j..][k..])
  {
    assert s[..j + k] == s[..j] + s[j..][..k];
    SumOfConcat(s[..j], s[j..][..k]);
    assert s[j + k..] == s[j..][k..];
  }
}
