/** The shape of the tables: how many rows SAC has, what each Price instalment is, and how far
    rounding to the cent can take the Price balance from the exact annuity. */
module FormaDaTabela {
  import opened Comum
  import opened Calendario
  import opened Centavos
  import opened Financiamento
  import opened Amortizacao
  import opened Reais

  // ----- SAC and zero rate -----

  predicate QuotasIguais(p: Plano) {
    PlanoOk(p) && !ComJuros(p, Price) && p.base >= 1
  }

  /** The quotas still due from month k on. */
  function Quotas(p: Plano, k: nat): int
    decreases p.n - k
  {
    if k >= p.n then 0 else p.base + Quotas(p, k + 1)
  }

  lemma {:induction false} QuotasLeft(p: Plano, k: nat)
    requires k <= p.n
    ensures Quotas(p, k) == (p.n - k) * p.base
    decreases p.n - k
  {
    if k < p.n {
      QuotasLeft(p, k + 1);
      var m := p.n - k;
      assert (m - 1) * p.base == m * p.base - p.base;
    }
  }

  /** From the second month on, each row takes base + extra off the balance until it is gone. */
  lemma EqualQuotaStep(p: Plano, k: nat, saldo: int)
    requires QuotasIguais(p) && 1 <= k < p.n && 0 <= saldo <= Quotas(p, k)
    ensures Linha(p, k, saldo).saldo == NaoNegativo(saldo - (p.base + p.extra)) <= Quotas(p, k + 1)
    ensures Linha(p, k, saldo).amortizacao == Min(saldo, p.base + p.extra)
  {
    NextBalance(p, k, saldo);
    NoNegativeQuotas(p, k + 1);
  }

  lemma {:induction false} NoNegativeQuotas(p: Plano, k: nat)
    requires QuotasIguais(p)
    ensures Quotas(p, k) >= 0
    decreases p.n - k
  {
    if k < p.n {
      NoNegativeQuotas(p, k + 1);
    }
  }

  /** How many times `parcela` has to be paid until nothing is left of `saldo`. */
  function Pagamentos(parcela: int, saldo: int): nat
    decreases saldo
  {
    if saldo <= 0 || parcela <= 0 then 0 else 1 + Pagamentos(parcela, saldo - parcela)
  }

  /** m rows of `parcela` cents each pay off `saldo`, and m - 1 do not. */
  predicate QuitaEm(m: int, parcela: int, saldo: int) {
    if saldo <= 0 then m == 0 else (m - 1) * parcela < saldo <= m * parcela
  }

  lemma {:induction false} PaymentsNeeded(parcela: int, saldo: int)
    requires parcela > 0
    ensures QuitaEm(Pagamentos(parcela, saldo), parcela, saldo)
    decreases saldo
  {
    if saldo > 0 {
      PaymentsNeeded(parcela, saldo - parcela);
      OneMoreRow(Pagamentos(parcela, saldo - parcela), parcela, saldo);
    }
  }

  lemma OneMoreRow(m: int, parcela: int, saldo: int)
    requires parcela > 0 && saldo > 0 && QuitaEm(m, parcela, saldo - parcela)
    ensures QuitaEm(m + 1, parcela, saldo)
  {
    assert (m + 1) * parcela == m * parcela + parcela;
    assert m * parcela == (m - 1) * parcela + parcela;
  }

  lemma {:induction false} RowsToPayOff(p: Plano, k: nat, saldo: int)
    requires QuotasIguais(p) && 1 <= k <= p.n && 0 <= saldo <= Quotas(p, k)
    ensures Linhas(p, k, saldo).Tabela?
    ensures |Linhas(p, k, saldo).linhas| == Pagamentos(p.base + p.extra, saldo)
    decreases p.n - k
  {
    if saldo > 0 && k < p.n {
      var l := Linha(p, k, saldo);
      EqualQuotaStep(p, k, saldo);
      RowsToPayOff(p, k + 1, l.saldo);
    }
  }

  /** With equal quotas the table has exactly ceil(n * base / (base + extra)) rows, base being a n-th of
      the amount and extra the contract's extra payment. */
  lemma EqualQuotaRowCount(c: Contrato, n: int, primeira: Data)
    requires c.taxa >= 0.0 && 1 <= n <= MAX_PARCELAS && n <= c.valor
    requires c.taxa == 0.0 || c.sistema == SAC
    ensures CronogramaSpec(c, n, primeira).Tabela?
    ensures QuitaEm(|CronogramaSpec(c, n, primeira).linhas|, c.valor / n + NaoNegativo(c.extra), n * (c.valor / n))
  {
    var p := EqualQuotaPlan(c, n, primeira);
    EqualQuotaRows(p, c.valor);
    QuotasLeft(p, 0);
    PaymentsNeeded(p.base + p.extra, Quotas(p, 0));
  }

  /** Every row but the last amortises base + extra, the first one the remainder as well. */
  predicate QuotasDe(r: seq<ParcelaProjetada>, quota: int, resto: int) {
    forall j :: 0 <= j < |r| - 1 ==> r[j].amortizacao == quota + if j == 0 then resto else 0
  }

  lemma {:induction false} QuotasFrom(p: Plano, k: nat, saldo: int)
    requires QuotasIguais(p) && 1 <= k <= p.n && 0 <= saldo <= Quotas(p, k) && Linhas(p, k, saldo).Tabela?
    ensures QuotasDe(Linhas(p, k, saldo).linhas, p.base + p.extra, 0)
    decreases p.n - k
  {
    if saldo > 0 && k < p.n {
      var l := Linha(p, k, saldo);
      EqualQuotaStep(p, k, saldo);
      QuotasFrom(p, k + 1, l.saldo);
      QuotaInFront(l, Linhas(p, k + 1, l.saldo).linhas, p.base + p.extra, 0);
    }
  }

  lemma QuotaInFront(l: ParcelaProjetada, s: seq<ParcelaProjetada>, quota: int, resto: int)
    requires QuotasDe(s, quota, 0) && (s != [] ==> l.amortizacao == quota + resto)
    ensures QuotasDe([l] + s, quota, resto)
  {
    var r := [l] + s;
    forall j | 0 <= j < |r| - 1
      ensures r[j].amortizacao == quota + if j == 0 then resto else 0
    {
      assert j > 0 ==> r[j] == s[j - 1];
    }
  }

  lemma QuotasOfPlan(p: Plano, valor: int)
    requires QuotasIguais(p) && valor == Quotas(p, 0) + p.resto && Linhas(p, 0, valor).Tabela?
    ensures QuotasDe(Linhas(p, 0, valor).linhas, p.base + p.extra, p.resto)
  {
    var l := Linha(p, 0, valor);
    FirstQuota(p, valor);
    NextBalance(p, 0, valor);
    NoNegativeQuotas(p, 1);
    QuotasFrom(p, 1, l.saldo);
    assert Prevista(p, 0, valor) == p.base + p.resto;
    assert l.saldo > 0 ==> l.amortizacao == p.base + p.extra + p.resto;
    assert l.saldo <= 0 ==> Linhas(p, 1, l.saldo).linhas == [];
    QuotaInFront(l, Linhas(p, 1, l.saldo).linhas, p.base + p.extra, p.resto);
  }

  /** With equal quotas every row but the last, which pays the balance off, amortises a n-th of the amount
      and the extra payment; the first takes the cents the division leaves as well. */
  lemma EqualQuotaAmortisations(c: Contrato, n: int, primeira: Data)
    requires c.taxa >= 0.0 && 1 <= n <= MAX_PARCELAS && n <= c.valor
    requires c.taxa == 0.0 || c.sistema == SAC
    ensures CronogramaSpec(c, n, primeira).Tabela?
    ensures QuotasDe(CronogramaSpec(c, n, primeira).linhas, c.valor / n + NaoNegativo(c.extra), c.valor % n)
  {
    var p := EqualQuotaPlan(c, n, primeira);
    EqualQuotaRows(p, c.valor);
    QuotasOfPlan(p, c.valor);
  }

  lemma EqualQuotaRows(p: Plano, valor: int)
    requires QuotasIguais(p) && valor == Quotas(p, 0) + p.resto
    ensures Linhas(p, 0, valor).Tabela?
    ensures |Linhas(p, 0, valor).linhas| == Pagamentos(p.base + p.extra, Quotas(p, 0))
  {
    FirstQuota(p, valor);
    RowsToPayOff(p, 1, Linha(p, 0, valor).saldo);
  }

  lemma FirstQuota(p: Plano, valor: int)
    requires QuotasIguais(p) && valor == Quotas(p, 0) + p.resto
    ensures p.base <= Quotas(p, 0)
    ensures Linha(p, 0, valor).saldo == NaoNegativo(Quotas(p, 0) - (p.base + p.extra)) <= Quotas(p, 1)
  {
    NoNegativeQuotas(p, 1);
    NextBalance(p, 0, valor);
  }

  predicate NuncaSobe(r: seq<ParcelaProjetada>) {
    forall j :: 0 <= j < |r| - 1 ==> r[j + 1].valor <= r[j].valor
  }

  lemma {:induction false} EqualQuotasFallFrom(p: Plano, k: nat, saldo: int, anterior: int)
    requires QuotasIguais(p) && 1 <= k <= p.n && 0 <= saldo <= Quotas(p, k)
    requires JurosDoMes(p, saldo) + Min(saldo, p.base + p.extra) <= anterior
    ensures Linhas(p, k, saldo).Tabela? && NuncaSobe(Linhas(p, k, saldo).linhas)
    ensures saldo > 0 && k < p.n ==> Linhas(p, k, saldo).linhas != [] && Linhas(p, k, saldo).linhas[0].valor <= anterior
    decreases p.n - k
  {
    if saldo > 0 && k < p.n {
      var l := Linha(p, k, saldo);
      EqualQuotaStep(p, k, saldo);
      NextBalance(p, k, saldo);
      InterestIsMonotone(p, l.saldo, saldo);
      EqualQuotasFallFrom(p, k + 1, l.saldo, l.valor);
    }
  }

  /** With equal quotas no instalment is larger than the one before it. */
  lemma EqualQuotaInstalmentsNeverRise(c: Contrato, n: int, primeira: Data)
    requires c.taxa >= 0.0 && 1 <= n <= MAX_PARCELAS && n <= c.valor
    requires c.taxa == 0.0 || c.sistema == SAC
    ensures CronogramaSpec(c, n, primeira).Tabela? && NuncaSobe(CronogramaSpec(c, n, primeira).linhas)
  {
    var p := EqualQuotaPlan(c, n, primeira);
    EqualQuotasFall(p, c.valor);
  }

  lemma EqualQuotaPlan(c: Contrato, n: int, primeira: Data) returns (p: Plano)
    requires c.taxa >= 0.0 && 1 <= n <= MAX_PARCELAS && n <= c.valor
    requires c.taxa == 0.0 || c.sistema == SAC
    ensures QuotasIguais(p) && p.n == n && c.valor == Quotas(p, 0) + p.resto
    ensures p.base == c.valor / n && p.resto == c.valor % n && p.extra == NaoNegativo(c.extra)
    ensures CronogramaSpec(c, n, primeira) == Linhas(p, 0, c.valor)
  {
    p := PlanoDe(c, n, primeira);
    PlanOfContract(c, n, primeira);
    QuotasAndRest(p, n, c.valor);
    RestOfDivision(c.valor, n);
  }

  lemma QuotasAndRest(p: Plano, n: int, valor: int)
    requires p.n == n && p.base * n + p.resto == valor
    ensures valor == Quotas(p, 0) + p.resto
  {
    QuotasLeft(p, 0);
  }

  lemma EqualQuotasFall(p: Plano, valor: int)
    requires QuotasIguais(p) && valor == Quotas(p, 0) + p.resto
    ensures Linhas(p, 0, valor).Tabela? && NuncaSobe(Linhas(p, 0, valor).linhas)
  {
    var l := Linha(p, 0, valor);
    NoNegativeQuotas(p, 1);
    FirstQuota(p, valor);
    NextBalance(p, 0, valor);
    InterestIsMonotone(p, l.saldo, valor);
    EqualQuotasFallFrom(p, 1, l.saldo, l.valor);
  }

  // ----- Price -----

  predicate TodasMenosAUltima(r: seq<ParcelaProjetada>, valor: int) {
    forall j :: 0 <= j < |r| - 1 ==> r[j].valor == valor
  }

  /** Every row but the last costs exactly `valor`, and the last one no more than that unless the table
      takes all its m months. */
  predicate Constante(r: seq<ParcelaProjetada>, valor: int, m: int) {
    TodasMenosAUltima(r, valor) && (0 < |r| < m ==> r[|r| - 1].valor <= valor)
  }

  lemma {:induction false} ConstantInstalmentsFrom(p: Plano, k: nat, saldo: int)
    requires PlanoOk(p) && ComJuros(p, Price) && saldo >= 0 && (k < p.n || saldo == 0)
    requires Linhas(p, k, saldo).Tabela?
    ensures Constante(Linhas(p, k, saldo).linhas, p.pmt + p.extra, p.n - k)
    decreases p.n - k
  {
    if saldo > 0 {
      var l := Linha(p, k, saldo);
      PriceRow(p, k, saldo);
      ConstantInstalmentsFrom(p, k + 1, l.saldo);
      TableIsConsistent(p, k + 1, l.saldo);
      RowBeforeConstant(l, Linhas(p, k + 1, l.saldo).linhas, p.pmt + p.extra, p.n - k);
    }
  }

  lemma RowBeforeConstant(l: ParcelaProjetada, s: seq<ParcelaProjetada>, valor: int, m: int)
    requires Constante(s, valor, m - 1) && (s != [] ==> l.valor == valor) && (m > 1 ==> l.valor <= valor)
    ensures Constante([l] + s, valor, m)
  {
    var r := [l] + s;
    assert s != [] ==> r[|r| - 1] == s[|s| - 1];
    forall j | 0 <= j < |r| - 1
      ensures r[j].valor == valor
    {
      if j > 0 {
        assert r[j] == s[j - 1];
      }
    }
  }

  /** A month that leaves a balance costs exactly the instalment and the extra payment; one before the
      last costs no more. */
  lemma PriceRow(p: Plano, k: nat, saldo: int)
    requires PlanoOk(p) && ComJuros(p, Price) && saldo > 0 && k < p.n && !JurosEngolemParcela(p, k, saldo)
    ensures var l := Linha(p, k, saldo);
            && l.saldo >= 0 && (k == p.n - 1 ==> l.saldo == 0)
            && (l.saldo > 0 ==> l.valor == p.pmt + p.extra)
            && (k < p.n - 1 ==> l.valor <= p.pmt + p.extra)
  {
    NextBalance(p, k, saldo);
  }

  /** What a Price contract pays every month but the last. */
  function Mensal(c: Contrato, n: nat): int
    requires c.taxa > 0.0 && n >= 1
  {
    Pmt(c.valor, c.taxa, n) + NaoNegativo(c.extra)
  }

  lemma PriceFields(c: Contrato, n: nat, primeira: Data)
    requires c.taxa > 0.0 && c.sistema == Price && 1 <= n <= c.valor
    ensures var p := PlanoDe(c, n, primeira);
            PlanoOk(p) && ComJuros(p, Price) && p.extra == NaoNegativo(c.extra) && p.n == n && p.taxa == c.taxa
            && p.pmt == Pmt(c.valor, c.taxa, n)
  {
    PlanOfContract(c, n, primeira);
  }

  /** Every Price row but the last costs the exact instalment rounded half up to the cent, and the extra
      payment; the last costs no more unless it is the contract's own last month. */
  lemma PriceInstalmentsAreConstant(c: Contrato, n: int, primeira: Data)
    requires c.taxa > 0.0 && c.sistema == Price && 1 <= n <= MAX_PARCELAS && n <= c.valor
    ensures CronogramaSpec(c, n, primeira).Tabela?
    ensures var r := CronogramaSpec(c, n, primeira).linhas;
            && TodasMenosAUltima(r, Mensal(c, n))
            && (|r| < n ==> r[|r| - 1].valor <= Mensal(c, n))
            && MaisPerto(Mensal(c, n) - NaoNegativo(c.extra), PrestacaoExata(c.valor, c.taxa, n))
  {
    ScheduleAlwaysExists(c, n, primeira);
    PriceFields(c, n, primeira);
    ConstantInstalmentsFrom(PlanoDe(c, n, primeira), 0, c.valor);
    TableIsConsistent(PlanoDe(c, n, primeira), 0, c.valor);
    InstalmentIsRounded(c, n);
  }

  // ----- interest -----

  /** j is x rounded half up. */
  predicate MaisPerto(j: int, x: real) {
    x - 0.5 < j as real <= x + 0.5
  }

  lemma RoundsHalfUp(x: real)
    requires x >= 0.0
    ensures MaisPerto(Arredonda(x), x)
  {}

  lemma InstalmentIsRounded(c: Contrato, n: nat)
    requires c.taxa > 0.0 && 1 <= n <= c.valor
    ensures MaisPerto(Pmt(c.valor, c.taxa, n), PrestacaoExata(c.valor, c.taxa, n))
  {
    AnnuityBounds(c, n);
    AtLeastNothing(c.valor as real, c.taxa, n as real, PrestacaoExata(c.valor, c.taxa, n));
    RoundsHalfUp(PrestacaoExata(c.valor, c.taxa, n));
  }

  lemma AtLeastNothing(v: real, i: real, n: real, a: real)
    requires v > 0.0 && i > 0.0 && AnnuityWithin(v, i, n, a)
    ensures a >= 0.0
  {
    PositiveProduct(v, i);
  }

  /** Each row bears a month's interest, rounded half up, on the balance before it. */
  predicate JurosCertos(r: seq<ParcelaProjetada>, taxa: real, saldo: int) {
    r == [] || (MaisPerto(r[0].juros, saldo as real * taxa) && JurosCertos(r[1..], taxa, r[0].saldo))
  }

  lemma InterestOfMonth(p: Plano, saldo: int)
    requires p.taxa >= 0.0 && saldo >= 0
    ensures MaisPerto(JurosDoMes(p, saldo), saldo as real * p.taxa)
  {
    NonNegativeProduct(saldo as real, p.taxa);
    RoundsHalfUp(saldo as real * p.taxa);
  }

  lemma {:induction false} InterestFrom(p: Plano, k: nat, saldo: int)
    requires PlanoOk(p) && saldo >= 0 && Linhas(p, k, saldo).Tabela?
    ensures JurosCertos(Linhas(p, k, saldo).linhas, p.taxa, saldo)
    decreases p.n - k
  {
    if saldo > 0 && k < p.n {
      var l := Linha(p, k, saldo);
      NextBalance(p, k, saldo);
      InterestOfMonth(p, saldo);
      InterestFrom(p, k + 1, l.saldo);
      assert Linhas(p, k, saldo).linhas[1..] == Linhas(p, k + 1, l.saldo).linhas;
    }
  }

  /** In every table, whatever the branch. */
  lemma InterestIsOnTheBalance(c: Contrato, n: int, primeira: Data)
    requires c.taxa >= 0.0 && 1 <= n <= MAX_PARCELAS && n <= c.valor
    ensures CronogramaSpec(c, n, primeira).Tabela?
    ensures JurosCertos(CronogramaSpec(c, n, primeira).linhas, c.taxa, c.valor)
  {
    ScheduleAlwaysExists(c, n, primeira);
    PlanOfContract(c, n, primeira);
    SamePlanRate(c, n, primeira);
    InterestFrom(PlanoDe(c, n, primeira), 0, c.valor);
  }

  lemma SamePlanRate(c: Contrato, n: nat, primeira: Data)
    requires c.taxa >= 0.0 && n >= 1
    ensures PlanoDe(c, n, primeira).taxa == c.taxa
  {}

  // ----- the monthly rate and the size of the numbers -----

  /** TaxaMensal: a twelfth of the yearly percentage, or its twelfth root. */
  predicate EhTaxaMensal(taxaAnual: real, nominal: bool, i: real) {
    var a := taxaAnual / 100.0;
    if a <= 0.0 then i == 0.0
    else if nominal then i == a / 12.0
    else i >= 0.0 && Pot(1.0 + i, 12) == 1.0 + a
  }

  lemma MonthlyRateBound(taxaAnual: real, nominal: bool, i: real)
    requires 0.0 <= taxaAnual <= 100.0 && EhTaxaMensal(taxaAnual, nominal, i)
    ensures 0.0 <= i <= taxaAnual / 1200.0 <= 1.0 / 12.0 && (i == 0.0 <==> taxaAnual == 0.0)
    ensures nominal ==> i == taxaAnual / 1200.0
    ensures !nominal ==> Pot(1.0 + i, 12) == 1.0 + taxaAnual / 100.0
  {
    if !nominal {
      BernoulliBound(i, 12);
    }
  }

  /** A yearly rate has one monthly rate. */
  lemma MonthlyRateIsUnique(taxaAnual: real, nominal: bool, i: real, j: real)
    requires EhTaxaMensal(taxaAnual, nominal, i) && EhTaxaMensal(taxaAnual, nominal, j)
    ensures i == j
  {
    if taxaAnual > 0.0 && !nominal {
      if i < j {
        PowersGrow(1.0 + i, 1.0 + j, 12);
      } else if j < i {
        PowersGrow(1.0 + j, 1.0 + i, 12);
      }
    }
  }

  lemma {:induction false} PowersGrow(a: real, b: real, n: nat)
    requires 1.0 <= a < b && n >= 1
    ensures Pot(a, n) < Pot(b, n)
  {
    if n > 1 {
      PowersGrow(a, b, n - 1);
      LargerProduct(a, b, Pot(a, n - 1), Pot(b, n - 1));
    }
  }

  lemma LargerProduct(a: real, b: real, x: real, y: real)
    requires 1.0 <= a < b && 1.0 <= x < y
    ensures a * x < b * y
  {
    PositiveProduct(b - a, y);
    PositiveProduct(a, y - x);
    assert b * y - a * x == (b - a) * y + a * (y - x);
  }

  /** No month of the table bears more interest than `juros`, that of its largest balance. */
  lemma {:induction false} InterestSumBound(p: Plano, k: nat, saldo: int, teto: int, juros: int)
    requires PlanoOk(p) && 0 <= saldo <= teto && (k < p.n || saldo == 0) && Linhas(p, k, saldo).Tabela?
    requires JurosDoMes(p, teto) <= juros
    ensures JurosAte(Linhas(p, k, saldo).linhas, juros)
    ensures |Linhas(p, k, saldo).linhas| <= NaoNegativo(p.n - k)
    decreases p.n - k
  {
    if saldo > 0 {
      var l := Linha(p, k, saldo);
      InterestIsMonotone(p, saldo, teto);
      NextBalance(p, k, saldo);
      InterestSumBound(p, k + 1, l.saldo, teto, juros);
      assert forall j :: 0 < j < |Linhas(p, k, saldo).linhas| ==>
               Linhas(p, k, saldo).linhas[j] == Linhas(p, k + 1, l.saldo).linhas[j - 1];
    }
  }

  predicate JurosAte(r: seq<ParcelaProjetada>, juros: int) {
    forall j :: 0 <= j < |r| ==> r[j].juros <= juros
  }

  lemma {:induction false} SumOfBounded(r: seq<ParcelaProjetada>, juros: int)
    requires JurosAte(r, juros)
    ensures SomaJuros(r) <= |r| * juros
  {
    if r != [] {
      SumOfBounded(r[1..], juros);
      assert |r| * juros == |r[1..]| * juros + juros;
    }
  }

  lemma InterestOfTwelfth(p: Plano, v: int)
    requires 0.0 <= p.taxa <= 1.0 / 12.0 && 0 <= v <= MAX_MONEY
    ensures 0 <= JurosDoMes(p, v) <= MAX_MONEY
  {
    InterestIsMonotone(p, v, MAX_MONEY);
    NonNegativeProduct(MAX_MONEY as real, 1.0 / 12.0 - p.taxa);
    assert MAX_MONEY as real * (1.0 / 12.0 - p.taxa) == MAX_MONEY as real / 12.0 - MAX_MONEY as real * p.taxa;
    NonNegativeProduct(MAX_MONEY as real, p.taxa);
    RoundIsMonotone(MAX_MONEY as real * p.taxa, MAX_MONEY as real);
  }

  lemma InstalmentOfTwelfth(c: Contrato, n: nat)
    requires 0.0 < c.taxa <= 1.0 / 12.0 && 1 <= n <= c.valor <= MAX_MONEY
    ensures 0 <= Pmt(c.valor, c.taxa, n) <= 2 * MAX_MONEY
  {
    var a, v := PrestacaoExata(c.valor, c.taxa, n), c.valor as real;
    AnnuityBounds(c, n);
    InstalmentUpperBound(v, c.taxa, n as real, a);
    RoundIsMonotone(a, 2.0 * MAX_MONEY as real);
    assert Arredonda(2.0 * MAX_MONEY as real) == 2 * MAX_MONEY;
  }

  lemma InstalmentUpperBound(v: real, i: real, n: real, a: real)
    requires v >= 1.0 && 0.0 < i <= 1.0 / 12.0 && n >= 1.0 && n * a <= n * (v * i) + v && v <= n * a
    ensures 0.0 <= a <= 2.0 * v
  {
    NonNegativeProduct(v, 1.0 - i);
    assert v * (1.0 - i) == v - v * i;
    NonNegativeProduct(n, v - v * i);
    assert n * (v - v * i) == n * v - n * (v * i);
    NonNegativeProduct(n - 1.0, v);
    assert (n - 1.0) * v == n * v - v;
    assert n * (2.0 * v) == n * v + n * v;
    CancelFactor(a, 2.0 * v, n);
    CancelFactor(0.0, a, n);
  }

  predicate CelulasPequenas(r: seq<ParcelaProjetada>) {
    forall j :: 0 <= j < |r| ==> 0 <= r[j].juros <= MAX_MONEY && 0 <= r[j].amortizacao <= MAX_MONEY
                                 && 0 <= r[j].valor <= 2 * MAX_MONEY && 0 <= r[j].saldo <= MAX_MONEY
  }

  predicate TotaisPequenos(r: seq<ParcelaProjetada>) {
    0 <= SomaJuros(r) <= 420 * MAX_MONEY && 0 <= SomaValor(r) <= 421 * MAX_MONEY <= MAX_INT64
  }

  predicate PlanoPequeno(p: Plano) {
    0 <= p.base * p.n <= MAX_MONEY && 0 <= p.pmt + p.extra <= 3 * MAX_MONEY
  }

  lemma SmallCells(r: seq<ParcelaProjetada>, k: nat, primeira: Data, saldo: int, teto: int)
    requires Consistente(r, k, primeira, saldo) && saldo <= MAX_MONEY && 0 <= teto <= MAX_MONEY
    requires forall j :: 0 <= j < |r| ==> r[j].juros <= teto
    ensures CelulasPequenas(r)
  {
    forall j | 0 <= j < |r|
      ensures 0 <= r[j].juros <= MAX_MONEY && 0 <= r[j].amortizacao <= MAX_MONEY
              && 0 <= r[j].valor <= 2 * MAX_MONEY && 0 <= r[j].saldo <= MAX_MONEY
    {
      ConsistentRows(r, k, primeira, saldo, j);
    }
  }

  lemma SmallPlan(c: Contrato, n: nat, primeira: Data)
    requires ContratoAceito(c, n) && c.taxa <= 1.0 / 12.0
    ensures PlanoPequeno(PlanoDe(c, n, primeira))
  {
    PlanOfContract(c, n, primeira);
    if c.taxa > 0.0 {
      InstalmentOfTwelfth(c, n);
    }
  }

  lemma SmallTable(p: Plano, valor: int)
    requires PlanoOk(p) && p.n <= MAX_PARCELAS && p.taxa <= 1.0 / 12.0 && 0 < valor <= MAX_MONEY
    requires Linhas(p, 0, valor).Tabela?
    ensures CelulasPequenas(Linhas(p, 0, valor).linhas) && TotaisPequenos(Linhas(p, 0, valor).linhas)
  {
    var r := Linhas(p, 0, valor).linhas;
    TableIsConsistent(p, 0, valor);
    ConsistentTotals(r, 0, p.primeira, valor);
    InterestOfTwelfth(p, valor);
    var juros := JurosDoMes(p, valor);
    InterestSumBound(p, 0, valor, valor, juros);
    SumOfBounded(r, juros);
    SmallCells(r, 0, p.primeira, valor, juros);
    MonthsTimesInterest(|r|, juros);
  }

  lemma MonthsTimesInterest(n: int, j: int)
    requires 1 <= n <= MAX_PARCELAS && 0 <= j <= MAX_MONEY
    ensures n * j <= 420 * MAX_MONEY
  {
    ScaleKeepsOrder(n, j, MAX_MONEY);
  }

  lemma ScaleKeepsOrder(n: int, a: int, b: int)
    requires n >= 0 && a <= b
    ensures n * a <= n * b
  {
    assert n * (b - a) == n * b - n * a;
  }

  /** For rates up to 100% a year no cell, no total and no intermediate sum of a table comes near
      the limits of int64. */
  lemma AmountsFitInt64(c: Contrato, n: int, primeira: Data)
    requires ContratoAceito(c, n) && c.taxa <= 1.0 / 12.0
    ensures CronogramaSpec(c, n, primeira).Tabela?
    ensures CelulasPequenas(CronogramaSpec(c, n, primeira).linhas)
    ensures TotaisPequenos(CronogramaSpec(c, n, primeira).linhas)
    ensures PlanoPequeno(PlanoDe(c, n, primeira))
  {
    ScheduleAlwaysExists(c, n, primeira);
    PlanOfContract(c, n, primeira);
    SmallPlan(c, n, primeira);
    SmallTable(PlanoDe(c, n, primeira), c.valor);
  }
}
