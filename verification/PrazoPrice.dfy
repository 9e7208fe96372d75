/** How many rows a Price table has, whatever its extra payment. */
module PrazoPrice {
  import opened Comum
  import opened Calendario
  import opened Financiamento
  import opened Amortizacao
  import opened Reais
  import opened FormaDaTabela
  import opened DerivaPrice

  // ----- the exact balance of a given instalment -----

  lemma {:induction false} ExactBalanceNeverExceeds(v: real, taxa: real, a: real, k: nat)
    requires taxa > 0.0 && CobreJuros(v, taxa, a)
    ensures SaldoExato(v, taxa, a, k + 1) <= SaldoExato(v, taxa, a, k) <= v
  {
    if k > 0 {
      ExactBalanceNeverExceeds(v, taxa, a, k - 1);
    }
    BalanceFalls(SaldoExato(v, taxa, a, k), v, taxa, a);
  }

  lemma BalanceFalls(s: real, v: real, i: real, a: real)
    requires i > 0.0 && s <= v && CobreJuros(v, i, a)
    ensures s * (1.0 + i) - a <= s
  {
    NonNegativeProduct(v - s, i);
    assert (v - s) * i == v * i - s * i;
    assert s * (1.0 + i) == s + s * i;
  }

  lemma {:induction false} ExactBalanceFalls(v: real, taxa: real, a: real, j: nat, k: nat)
    requires taxa > 0.0 && CobreJuros(v, taxa, a) && j <= k
    ensures SaldoExato(v, taxa, a, k) <= SaldoExato(v, taxa, a, j)
    decreases k
  {
    if j < k {
      ExactBalanceFalls(v, taxa, a, j, k - 1);
      ExactBalanceNeverExceeds(v, taxa, a, k - 1);
    }
  }

  lemma {:induction false} DriftFromOneMonth(taxa: real, m: nat)
    requires taxa > 0.0 && m >= 1
    ensures Deriva(1.0, taxa, m) >= 1.0
  {
    DriftGrows(1.0, taxa, 1, m);
    assert Deriva(1.0, taxa, 0) == 0.0;
  }

  /** What instalments of b leave owed: as much as b falls short of the instalment a that pays v off in m
      months, with every month's interest. */
  predicate FaltaDe(s: real, a: real, b: real, d: real) {
    s == (a - b) * d
  }

  lemma BalanceOfInstalment(v: real, taxa: real, m: nat, a: real, b: real)
    requires taxa > 0.0 && Prestacao(v, taxa, Pot(1.0 + taxa, m), a)
    ensures FaltaDe(SaldoExato(v, taxa, b, m), a, b, Deriva(1.0, taxa, m))
  {
    ExactBalanceForm(v, taxa, b, m);
    DriftTimesRate(taxa, m);
    ShortfallAt(SaldoExato(v, taxa, b, m), v, taxa, Pot(1.0 + taxa, m), a, b, Deriva(1.0, taxa, m));
  }

  lemma ShortfallAt(s: real, v: real, i: real, f: real, a: real, b: real, d: real)
    requires i > 0.0 && VezesTaxa(d, i, f) && Prestacao(v, i, f, a) && FormaExata(s, v, f, b, d)
    ensures FaltaDe(s, a, b, d)
  {
    FullyPaid(v, i, f, a, d);
    assert (a - b) * d == a * d - b * d;
  }

  lemma FullyPaid(v: real, i: real, f: real, a: real, d: real)
    requires i > 0.0 && VezesTaxa(d, i, f) && Prestacao(v, i, f, a)
    ensures v * f == a * d
  {
    assert FormaExata(v * f - a * d, v, f, a, d);
    NothingLeft(v * f - a * d, v, i, f, a, d);
  }

  /** Instalments of b have paid v off after m months exactly when b is at least the exact instalment. */
  lemma PaidOffIff(v: real, taxa: real, m: nat, a: real, b: real)
    requires taxa > 0.0 && m >= 1 && Prestacao(v, taxa, Pot(1.0 + taxa, m), a)
    ensures SaldoExato(v, taxa, b, m) > 0.0 <==> b < a
  {
    BalanceOfInstalment(v, taxa, m, a, b);
    DriftFromOneMonth(taxa, m);
    SignOfShortfall(SaldoExato(v, taxa, b, m), a, b, Deriva(1.0, taxa, m));
  }

  lemma SignOfShortfall(s: real, a: real, b: real, d: real)
    requires d >= 1.0 && FaltaDe(s, a, b, d)
    ensures s > 0.0 <==> b < a
  {
    SignOfProduct(a - b, d);
  }

  lemma SignOfProduct(x: real, d: real)
    requires d > 0.0
    ensures x * d > 0.0 <==> x > 0.0
  {
    if x > 0.0 {
      PositiveProduct(x, d);
    } else {
      NonNegativeProduct(-x, d);
      assert (-x) * d == -(x * d);
    }
  }

  // ----- the table between two exact balances -----

  lemma OneMonthBounds(s: real, i: real, juros: real, q: real, x: real, y: real, x': real, y': real)
    requires i > 0.0 && Entre(juros - s * i, 0.5, 0.5) && x <= s <= y
    requires Recorre(x', x, i, -(q + 0.5)) && Recorre(y', y, i, -(q - 0.5))
    ensures x' <= s + juros - q <= y'
  {
    var t := 1.0 + i;
    NonNegativeProduct(s - x, t);
    NonNegativeProduct(y - s, t);
    assert (s - x) * t == s * t - x * t && (y - s) * t == y * t - s * t;
    assert s * t == s + s * i;
  }

  /** Between the exact balances of instalments half a cent above and below what the plan pays. */
  predicate EntreSaldos(p: Plano, v: real, k: nat, saldo: int) {
    var q := (p.pmt + p.extra) as real;
    SaldoExato(v, p.taxa, q + 0.5, k) <= saldo as real <= SaldoExato(v, p.taxa, q - 0.5, k)
  }

  lemma MonthBetween(p: Plano, v: real, k: nat, saldo: int)
    requires PlanoOk(p) && ComJuros(p, Price) && saldo >= 0 && EntreSaldos(p, v, k, saldo)
    ensures EntreSaldos(p, v, k + 1, saldo + JurosDoMes(p, saldo) - (p.pmt + p.extra))
  {
    var q := (p.pmt + p.extra) as real;
    InterestIsClose(p, saldo);
    NextExactBalance(v, p.taxa, q + 0.5, k);
    NextExactBalance(v, p.taxa, q - 0.5, k);
    OneMonthBounds(saldo as real, p.taxa, JurosDoMes(p, saldo) as real, q,
                   SaldoExato(v, p.taxa, q + 0.5, k), SaldoExato(v, p.taxa, q - 0.5, k),
                   SaldoExato(v, p.taxa, q + 0.5, k + 1), SaldoExato(v, p.taxa, q - 0.5, k + 1));
  }

  lemma {:induction false} RowsBeyond(p: Plano, v: real, k: nat, saldo: int, m: nat)
    requires PlanoOk(p) && ComJuros(p, Price) && saldo >= 0 && EntreSaldos(p, v, k, saldo) && k <= m < p.n
    requires CobreJuros(v, p.taxa, (p.pmt + p.extra) as real + 0.5) && Linhas(p, k, saldo).Tabela?
    requires SaldoExato(v, p.taxa, (p.pmt + p.extra) as real + 0.5, m) > 0.0
    ensures |Linhas(p, k, saldo).linhas| > m - k
    decreases m - k
  {
    ExactBalanceFalls(v, p.taxa, (p.pmt + p.extra) as real + 0.5, k, m);
    if k < m {
      ExactBalanceFalls(v, p.taxa, (p.pmt + p.extra) as real + 0.5, k + 1, m);
      NextBalance(p, k, saldo);
      MonthBetween(p, v, k, saldo);
      RowsBeyond(p, v, k + 1, Linha(p, k, saldo).saldo, m);
    }
  }

  lemma {:induction false} RowsUpTo(p: Plano, v: real, k: nat, saldo: int, m: nat)
    requires PlanoOk(p) && ComJuros(p, Price) && saldo >= 0 && EntreSaldos(p, v, k, saldo) && k <= m < p.n
    requires Linhas(p, k, saldo).Tabela? && SaldoExato(v, p.taxa, (p.pmt + p.extra) as real - 0.5, m) <= 0.0
    ensures |Linhas(p, k, saldo).linhas| <= m - k
    decreases m - k
  {
    if saldo > 0 {
      NextBalance(p, k, saldo);
      MonthBetween(p, v, k, saldo);
      if Linha(p, k, saldo).saldo > 0 {
        RowsUpTo(p, v, k + 1, Linha(p, k, saldo).saldo, m);
      }
    }
  }

  lemma RowsOfPlan(p: Plano, v: real, valor: int, m: nat, a: real)
    requires PlanoOk(p) && ComJuros(p, Price) && valor > 0 && valor as real == v && Linhas(p, 0, valor).Tabela?
    requires CobreJuros(v, p.taxa, (p.pmt + p.extra) as real + 0.5)
    requires 1 <= m < p.n && Prestacao(v, p.taxa, Pot(1.0 + p.taxa, m), a)
    ensures (p.pmt + p.extra) as real + 0.5 < a ==> |Linhas(p, 0, valor).linhas| > m
    ensures (p.pmt + p.extra) as real - 0.5 >= a ==> |Linhas(p, 0, valor).linhas| <= m
  {
    var q := (p.pmt + p.extra) as real;
    PaidOffIff(v, p.taxa, m, a, q + 0.5);
    PaidOffIff(v, p.taxa, m, a, q - 0.5);
    if q + 0.5 < a {
      RowsBeyond(p, v, 0, valor, m);
    }
    if q - 0.5 >= a {
      RowsUpTo(p, v, 0, valor, m);
    }
  }

  lemma PaysMoreThanInterest(p: Plano, v: real, a: real, e: real)
    requires PlanoPrice(p, v, a, e)
    ensures CobreJuros(v, p.taxa, (p.pmt + p.extra) as real + 0.5)
  {}

  /** A Price table whose instalment and extra payment make q has more than m rows when half a cent above
      q would not pay the amount off in m months, and m at most when half a cent below q would. Unless q
      is within half a cent of the exact instalment of some number of months, that is the row count. */
  lemma PriceRowCount(c: Contrato, n: int, primeira: Data, m: int)
    requires c.taxa > 0.0 && c.sistema == Price && 1 <= n <= MAX_PARCELAS && n <= c.valor && 1 <= m < n
    ensures CronogramaSpec(c, n, primeira).Tabela?
    ensures var r := CronogramaSpec(c, n, primeira).linhas;
            var q, a := Mensal(c, n) as real, PrestacaoExata(c.valor, c.taxa, m);
            (q + 0.5 < a ==> |r| > m) && (q - 0.5 >= a ==> |r| <= m)
  {
    ScheduleAlwaysExists(c, n, primeira);
    PriceFields(c, n, primeira);
    PricePlanOfContract(c, n, primeira);
    EquationOfInstalment(c.valor, c.taxa, m);
    var p := PlanoDe(c, n, primeira);
    PaysMoreThanInterest(p, c.valor as real, MensalExato(c, n), Desvio(c, n));
    RowsOfPlan(p, c.valor as real, c.valor, m, PrestacaoExata(c.valor, c.taxa, m));
  }

  // ----- the full term -----

  /** All that rounding can have taken off the balance before the last month stays below it. */
  predicate Folgada(e: real, a: real, d: real) {
    (0.5 + e) * (d - 1.0) < a
  }

  /** The balance before the last month, when e more than a is paid: s' is the one after it. */
  lemma LastMonthRoom(s: real, s': real, i: real, a: real, e: real, d: real)
    requires i > 0.0 && Recorre(s', s, i, -(a + e + 0.5)) && FaltaDe(s', a, a + e + 0.5, d) && Folgada(e, a, d)
    ensures s > 0.0
  {
    assert (a - (a + e + 0.5)) * d == -((0.5 + e) * d);
    assert (0.5 + e) * (d - 1.0) == (0.5 + e) * d - (0.5 + e);
    assert s * (1.0 + i) > 0.0;
    CancelFactor(0.0, s, 1.0 + i);
  }

  lemma FullTerm(p: Plano, v: real, valor: int, a: real, e: real)
    requires PlanoOk(p) && ComJuros(p, Price) && valor > 0 && valor as real == v && Linhas(p, 0, valor).Tabela?
    requires CobreJuros(v, p.taxa, (p.pmt + p.extra) as real + 0.5) && (p.pmt + p.extra) as real == a + e
    requires Prestacao(v, p.taxa, Pot(1.0 + p.taxa, p.n), a) && Folgada(e, a, Deriva(1.0, p.taxa, p.n))
    ensures |Linhas(p, 0, valor).linhas| == p.n
  {
    var b := a + e + 0.5;
    BalanceOfInstalment(v, p.taxa, p.n, a, b);
    NextExactBalance(v, p.taxa, b, p.n - 1);
    LastMonthRoom(SaldoExato(v, p.taxa, b, p.n - 1), SaldoExato(v, p.taxa, b, p.n), p.taxa, a, e,
                  Deriva(1.0, p.taxa, p.n));
    RowsBeyond(p, v, 0, valor, p.n - 1);
    TableIsConsistent(p, 0, valor);
  }

  /** A Price table that pays, extra included, e cents a month more than the exact instalment A of its n
      months has all n rows whenever (1/2 + e) * (((1+i)^n - 1)/i - 1) < A: that is the most the extra
      and the rounding can have taken off the balance before the last month. */
  lemma PriceRunsFullTerm(c: Contrato, n: int, primeira: Data)
    requires c.taxa > 0.0 && c.sistema == Price && 1 <= n <= MAX_PARCELAS && n <= c.valor
    requires Folgada(Desvio(c, n) + NaoNegativo(c.extra) as real, PrestacaoExata(c.valor, c.taxa, n),
                     Deriva(1.0, c.taxa, n))
    ensures CronogramaSpec(c, n, primeira).Tabela? && |CronogramaSpec(c, n, primeira).linhas| == n
  {
    ScheduleAlwaysExists(c, n, primeira);
    PriceFields(c, n, primeira);
    PricePlanOfContract(c, n, primeira);
    EquationOfInstalment(c.valor, c.taxa, n);
    var p := PlanoDe(c, n, primeira);
    PaysMoreThanInterest(p, c.valor as real, MensalExato(c, n), Desvio(c, n));
    FullTerm(p, c.valor as real, c.valor, PrestacaoExata(c.valor, c.taxa, n),
             Desvio(c, n) + NaoNegativo(c.extra) as real);
  }

  // ----- by whole instalments -----

  function Vezes(m: nat, q: int): int {
    if m == 0 then 0 else q + Vezes(m - 1, q)
  }

  lemma {:induction false} TimesIsProduct(m: nat, q: int)
    ensures Vezes(m, q) == m * q
  {
    if m > 0 {
      TimesIsProduct(m - 1, q);
      assert m * q == (m - 1) * q + q;
    }
  }

  lemma {:induction false} TimesIsPositive(m: nat, q: int)
    requires q >= 0
    ensures Vezes(m, q) >= 0
  {
    if m > 0 {
      TimesIsPositive(m - 1, q);
    }
  }

  /** A month takes at most the instalment and the extra payment off the balance. */
  lemma {:induction false} SlowPayoff(p: Plano, k: nat, saldo: int)
    requires PlanoOk(p) && ComJuros(p, Price) && k < p.n && 0 < saldo && Linhas(p, k, saldo).Tabela?
    requires saldo > Vezes(p.n - 1 - k, p.pmt + p.extra)
    ensures |Linhas(p, k, saldo).linhas| == p.n - k
    decreases p.n - k
  {
    NextBalance(p, k, saldo);
    if k < p.n - 1 {
      TimesIsPositive(p.n - 2 - k, p.pmt + p.extra);
      SlowPayoff(p, k + 1, Linha(p, k, saldo).saldo);
    }
  }

  /** And at least that less the interest `juros` of the largest balance. */
  lemma {:induction false} FastPayoff(p: Plano, k: nat, saldo: int, teto: int, juros: int)
    requires PlanoOk(p) && ComJuros(p, Price) && k < p.n && 0 <= saldo <= teto && Linhas(p, k, saldo).Tabela?
    requires JurosDoMes(p, teto) <= juros <= p.pmt + p.extra && saldo <= Vezes(p.n - 1 - k, p.pmt + p.extra - juros)
    ensures |Linhas(p, k, saldo).linhas| < p.n - k
    decreases p.n - k
  {
    if saldo > 0 {
      NextBalance(p, k, saldo);
      InterestIsMonotone(p, saldo, teto);
      TimesIsPositive(p.n - 2 - k, p.pmt + p.extra - juros);
      FastPayoff(p, k + 1, Linha(p, k, saldo).saldo, teto, juros);
    }
  }

  /** Without interest every month but the last takes the same. */
  lemma {:induction false} NoInterestRows(p: Plano, k: nat, saldo: int, teto: int)
    requires PlanoOk(p) && ComJuros(p, Price) && p.pmt > 0 && k <= p.n && 0 <= saldo <= teto
    requires JurosDoMes(p, teto) == 0 && Linhas(p, k, saldo).Tabela?
    ensures |Linhas(p, k, saldo).linhas| == Min(p.n - k, Pagamentos(p.pmt + p.extra, saldo))
    decreases p.n - k
  {
    if saldo > 0 && k < p.n {
      InterestIsMonotone(p, saldo, teto);
      NextBalance(p, k, saldo);
      NoInterestRows(p, k + 1, Linha(p, k, saldo).saldo, teto);
    }
  }

  /** What m rows of a table over n months for `valor` say of its monthly payment q and the first
      month's interest. */
  predicate PrazoPorParcelas(m: int, n: int, valor: int, q: int, juros: int) {
    && (valor > (n - 1) * q ==> m == n)
    && (valor <= (n - 1) * (q - juros) ==> m < n)
    && (juros == 0 ==> (m < n <==> valor <= (n - 1) * q) && m == Min(n, Pagamentos(q, valor)))
  }

  lemma TermBracket(p: Plano, valor: int, q: int, juros: int)
    requires PlanoOk(p) && ComJuros(p, Price) && valor > 0 && Linhas(p, 0, valor).Tabela?
    requires q == p.pmt + p.extra && juros == JurosDoMes(p, valor) <= p.pmt && 0 < p.pmt
    ensures PrazoPorParcelas(|Linhas(p, 0, valor).linhas|, p.n, valor, q, juros)
  {
    TimesIsProduct(p.n - 1, q);
    TimesIsProduct(p.n - 1, q - juros);
    if valor > Vezes(p.n - 1, q) {
      SlowPayoff(p, 0, valor);
    }
    if valor <= Vezes(p.n - 1, q - juros) {
      FastPayoff(p, 0, valor, valor, juros);
    }
    if juros == 0 {
      NoInterestRows(p, 0, valor, valor);
    }
  }

  /** A Price table, with any extra payment, runs its full term when n - 1 whole instalments would not
      pay the amount off, and ends early when n - 1 of them less the first month's interest do. Where
      that interest rounds to nothing the two meet: it ends early if and only if
      V <= (n - 1) * (instalment + extra), and has as many rows as it takes to pay V, n at most. */
  lemma PriceTermBracket(c: Contrato, n: int, primeira: Data)
    requires c.taxa > 0.0 && c.sistema == Price && 1 <= n <= MAX_PARCELAS && n <= c.valor
    ensures CronogramaSpec(c, n, primeira).Tabela?
    ensures PrazoPorParcelas(|CronogramaSpec(c, n, primeira).linhas|, n, c.valor, Mensal(c, n),
                             Arredonda(c.valor as real * c.taxa))
  {
    ScheduleAlwaysExists(c, n, primeira);
    var p, q, juros := PricePlan(c, n, primeira);
    TermBracket(p, c.valor, q, juros);
  }

  lemma PricePlan(c: Contrato, n: int, primeira: Data) returns (p: Plano, q: int, juros: int)
    requires c.taxa > 0.0 && c.sistema == Price && 1 <= n <= MAX_PARCELAS && n <= c.valor
    ensures PlanoOk(p) && ComJuros(p, Price) && p.n == n && p.pmt >= 1
    ensures q == Mensal(c, n) == p.pmt + p.extra
    ensures juros == Arredonda(c.valor as real * c.taxa) == JurosDoMes(p, c.valor) <= p.pmt
    ensures CronogramaSpec(c, n, primeira) == Linhas(p, 0, c.valor)
  {
    p := PlanoDe(c, n, primeira);
    PriceFields(c, n, primeira);
    PlannedInterestIsCovered(c, n, primeira);
    FirstInterest(p, c.valor, c.taxa);
    q, juros := Mensal(c, n), Arredonda(c.valor as real * c.taxa);
  }

  lemma FirstInterest(p: Plano, valor: int, taxa: real)
    requires p.taxa == taxa > 0.0
    ensures JurosDoMes(p, valor) == Arredonda(valor as real * taxa)
  {}

  /** Eleven cents over seven months at 0.1% a month: the instalment of 1.57 cents rounds to 2 and the
      loan is over after six rows, with no extra payment. */
  lemma PriceCanEndEarly(primeira: Data)
    ensures var r := CronogramaSpec(Contrato(Price, 11, 0.001, 0, 0), 7, primeira);
            r.Tabela? && |r.linhas| == 6
  {
    var c := Contrato(Price, 11, 0.001, 0, 0);
    AnnuityBounds(c, 7);
    TwoCentInstalment(PrestacaoExata(11, 0.001, 7));
    PriceTermBracket(c, 7, primeira);
    var p := PlanoDe(c, 7, primeira);
    assert p.pmt == 2 && p.extra == 0 && p.taxa == 0.001;
    NoInterestYet(p);
    assert Pagamentos(2, 5) == 3 && Pagamentos(2, 11) == 6;
  }

  lemma TwoCentInstalment(a: real)
    requires AnnuityWithin(11.0, 0.001, 7.0, a)
    ensures Arredonda(a) == 2
  {}

  lemma NoInterestYet(p: Plano)
    requires p.taxa == 0.001
    ensures JurosDoMes(p, 11) == 0
  {}
}
