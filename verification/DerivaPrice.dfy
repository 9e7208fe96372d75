/** How far rounding to the cent takes a Price table from the exact annuity. */
module DerivaPrice {
  import opened Comum
  import opened Calendario
  import opened Financiamento
  import opened Amortizacao
  import opened FormaDaTabela
  import opened Reais

  // ----- the exact annuity -----

  /** The balance of the annuity of instalment a computed without rounding. */
  function SaldoExato(valor: real, taxa: real, a: real, k: nat): real {
    if k == 0 then valor else SaldoExato(valor, taxa, a, k - 1) * (1.0 + taxa) - a
  }

  /** What k monthly errors of u cents grow to. */
  function Deriva(u: real, taxa: real, k: nat): real {
    if k == 0 then 0.0 else Deriva(u, taxa, k - 1) * (1.0 + taxa) + u
  }

  /** x' is x after a month of interest and u more. */
  predicate Recorre(x': real, x: real, i: real, u: real) {
    x' == x * (1.0 + i) + u
  }

  lemma NextDrift(u: real, taxa: real, k: nat)
    ensures Recorre(Deriva(u, taxa, k + 1), Deriva(u, taxa, k), taxa, u)
  {}

  lemma NextExactBalance(v: real, taxa: real, a: real, k: nat)
    ensures Recorre(SaldoExato(v, taxa, a, k + 1), SaldoExato(v, taxa, a, k), taxa, -a)
  {}

  lemma {:induction false} DriftIsPositive(u: real, taxa: real, k: nat)
    requires u >= 0.0 && taxa >= 0.0
    ensures Deriva(u, taxa, k) >= 0.0
  {
    if k > 0 {
      DriftIsPositive(u, taxa, k - 1);
      NonNegativeProduct(Deriva(u, taxa, k - 1), 1.0 + taxa);
    }
  }

  predicate VezesTaxa(d: real, i: real, f: real) {
    d * i == f - 1.0
  }

  lemma {:induction false} DriftTimesRate(taxa: real, k: nat)
    ensures VezesTaxa(Deriva(1.0, taxa, k), taxa, Pot(1.0 + taxa, k))
  {
    if k > 0 {
      DriftTimesRate(taxa, k - 1);
      NextDrift(1.0, taxa, k - 1);
      NextPower(taxa, k - 1);
      DriftStep(Deriva(1.0, taxa, k - 1), taxa, Pot(1.0 + taxa, k - 1), Deriva(1.0, taxa, k), Pot(1.0 + taxa, k));
    } else {
      NoDrift(taxa);
    }
  }

  predicate Composto(f': real, f: real, i: real) {
    f' == (1.0 + i) * f
  }

  lemma NextPower(taxa: real, k: nat)
    ensures Composto(Pot(1.0 + taxa, k + 1), Pot(1.0 + taxa, k), taxa)
  {}

  lemma NoDrift(i: real)
    ensures VezesTaxa(0.0, i, 1.0)
  {}

  lemma DriftStep(d: real, i: real, f: real, d': real, f': real)
    requires VezesTaxa(d, i, f) && Recorre(d', d, i, 1.0) && Composto(f', f, i)
    ensures VezesTaxa(d', i, f')
  {
    var di := d * i;
    assert d * (1.0 + i) == d + di;
    assert (d + di + 1.0) * i == di + di * i + i;
    assert (1.0 + i) * f == (1.0 + i) * (di + 1.0);
  }

  /** The drift of one cent a month in closed form. */
  lemma DriftClosedForm(taxa: real, k: nat)
    requires taxa > 0.0
    ensures Deriva(1.0, taxa, k) == (Pot(1.0 + taxa, k) - 1.0) / taxa
  {
    DriftTimesRate(taxa, k);
    Quotient(Deriva(1.0, taxa, k), taxa, Pot(1.0 + taxa, k) - 1.0);
  }

  lemma Quotient(x: real, g: real, y: real)
    requires g != 0.0 && x * g == y
    ensures x == y / g
  {}

  predicate Produto(x: real, u: real, d: real) {
    x == u * d
  }

  lemma {:induction false} DriftScales(u: real, taxa: real, k: nat)
    ensures Produto(Deriva(u, taxa, k), u, Deriva(1.0, taxa, k))
  {
    if k > 0 {
      DriftScales(u, taxa, k - 1);
      ScaleStep(Deriva(u, taxa, k - 1), u, Deriva(1.0, taxa, k - 1), 1.0 + taxa);
    } else {
      assert u * 0.0 == 0.0;
    }
  }

  lemma ScaleStep(x: real, u: real, d: real, t: real)
    requires Produto(x, u, d)
    ensures Produto(x * t + u, u, d * t + 1.0)
  {
    assert u * (d * t + 1.0) == u * d * t + u;
  }

  lemma {:induction false} DriftGrows(u: real, taxa: real, a: nat, b: nat)
    requires u >= 0.0 && taxa >= 0.0 && a <= b
    ensures Deriva(u, taxa, a) <= Deriva(u, taxa, b)
    decreases b
  {
    if a < b {
      DriftGrows(u, taxa, a, b - 1);
      DriftIsPositive(u, taxa, b - 1);
      GrowByRate(Deriva(u, taxa, b - 1), taxa);
    }
  }

  lemma GrowByRate(d: real, i: real)
    requires d >= 0.0 && i >= 0.0
    ensures d * (1.0 + i) >= d
  {
    NonNegativeProduct(d, i);
    assert d * (1.0 + i) == d + d * i;
  }

  /** v compounded less the instalments compounded. */
  predicate FormaExata(s: real, v: real, f: real, a: real, d: real) {
    s == v * f - a * d
  }

  lemma {:induction false} ExactBalanceForm(v: real, taxa: real, a: real, k: nat)
    ensures FormaExata(SaldoExato(v, taxa, a, k), v, Pot(1.0 + taxa, k), a, Deriva(1.0, taxa, k))
  {
    if k > 0 {
      ExactBalanceForm(v, taxa, a, k - 1);
      BalanceStep(SaldoExato(v, taxa, a, k - 1), v, Pot(1.0 + taxa, k - 1), a, Deriva(1.0, taxa, k - 1), 1.0 + taxa);
    } else {
      FirstBalance(v, a);
    }
  }

  lemma FirstBalance(v: real, a: real)
    ensures FormaExata(v, v, 1.0, a, 0.0)
  {}

  lemma BalanceStep(s: real, v: real, f: real, a: real, d: real, t: real)
    requires FormaExata(s, v, f, a, d)
    ensures FormaExata(s * t - a, v, t * f, a, d * t + 1.0)
  {
    assert s * t == v * f * t - a * d * t;
    assert v * (t * f) == v * f * t;
    assert a * (d * t + 1.0) == a * d * t + a;
  }

  /** a is the instalment that pays v off at rate i, where f = (1+i)^n. */
  predicate Prestacao(v: real, i: real, f: real, a: real) {
    a * (f - 1.0) == v * i * f
  }

  /** The exact annuity is paid off by its n-th instalment. */
  lemma ExactBalanceReachesZero(v: real, taxa: real, n: nat, a: real)
    requires taxa > 0.0 && Prestacao(v, taxa, Pot(1.0 + taxa, n), a)
    ensures SaldoExato(v, taxa, a, n) == 0.0
  {
    ExactBalanceForm(v, taxa, a, n);
    DriftTimesRate(taxa, n);
    NothingLeft(SaldoExato(v, taxa, a, n), v, taxa, Pot(1.0 + taxa, n), a, Deriva(1.0, taxa, n));
  }

  lemma NothingLeft(s: real, v: real, i: real, f: real, a: real, d: real)
    requires i > 0.0 && VezesTaxa(d, i, f) && Prestacao(v, i, f, a) && FormaExata(s, v, f, a, d)
    ensures s == 0.0
  {
    assert a * d * i == a * (d * i);
    assert v * f * i == v * i * f;
    CancelFactor(v * f, a * d, i);
    CancelFactor(a * d, v * f, i);
  }

  // ----- one month's rounding -----

  predicate Entre(x: real, abaixo: real, acima: real) {
    -abaixo <= x <= acima
  }

  /** The table's balance s against the exact one b, when the instalment is e cents above the exact
      one: a month adds half a cent of interest either way and takes the instalment's error off. */
  lemma ErrorStep(s: real, b: real, i: real, juros: real, a: real, e: real, lo: real, hi: real,
                  b': real, lo': real, hi': real)
    requires i > 0.0 && Entre(s - b, lo, hi) && Entre(juros - s * i, 0.5, 0.5)
    requires Recorre(b', b, i, -a) && Recorre(lo', lo, i, 0.5 + e) && Recorre(hi', hi, i, 0.5 - e)
    ensures Entre(s + juros - (a + e) - b', lo', hi')
  {
    var y := s - b;
    var t := 1.0 + i;
    NonNegativeProduct(y + lo, t);
    NonNegativeProduct(hi - y, t);
    assert (y + lo) * t == y * t + lo * t && (hi - y) * t == hi * t - y * t;
    assert y * t == s + s * i - b * t;
  }

  lemma InterestIsClose(p: Plano, saldo: int)
    requires p.taxa > 0.0 && saldo >= 0
    ensures Entre(JurosDoMes(p, saldo) as real - saldo as real * p.taxa, 0.5, 0.5)
  {
    NonNegativeProduct(saldo as real, p.taxa);
    RoundIsClose(saldo as real * p.taxa);
  }

  predicate CobreJuros(v: real, i: real, a: real) {
    v * i < a
  }

  /** A Price plan for v that pays, extra included, e cents a month above the exact a. */
  predicate PlanoPrice(p: Plano, v: real, a: real, e: real) {
    && PlanoOk(p) && ComJuros(p, Price)
    && (p.pmt + p.extra) as real == a + e && Entre(e, 0.5, 0.5) && CobreJuros(v, p.taxa, a)
  }

  /** What rounding adds to the exact instalment, at most half a cent either way. */
  function Desvio(c: Contrato, n: nat): real
    requires c.taxa > 0.0 && n >= 1
  {
    Pmt(c.valor, c.taxa, n) as real - PrestacaoExata(c.valor, c.taxa, n)
  }

  /** The exact instalment and the extra payment. */
  function MensalExato(c: Contrato, n: nat): real
    requires c.taxa > 0.0 && n >= 1
  {
    PrestacaoExata(c.valor, c.taxa, n) + NaoNegativo(c.extra) as real
  }

  lemma RoundedInstalment(v: real, i: real, n: real, a: real)
    requires v > 0.0 && i > 0.0 && AnnuityWithin(v, i, n, a)
    ensures Entre(Arredonda(a) as real - a, 0.5, 0.5) && CobreJuros(v, i, a)
  {
    NonNegativeProduct(v, i);
    RoundIsClose(a);
  }

  lemma EquationOfInstalment(valor: int, taxa: real, n: nat)
    requires taxa > 0.0 && n >= 1
    ensures Prestacao(valor as real, taxa, Pot(1.0 + taxa, n), PrestacaoExata(valor, taxa, n))
  {
    AnnuityEquation(valor, taxa, n);
  }

  lemma PricePlanOfContract(c: Contrato, n: nat, primeira: Data)
    requires c.taxa > 0.0 && c.sistema == Price && 1 <= n <= c.valor
    ensures PlanoPrice(PlanoDe(c, n, primeira), c.valor as real, MensalExato(c, n), Desvio(c, n))
  {
    PriceFields(c, n, primeira);
    AnnuityBounds(c, n);
    PricePlan(PlanoDe(c, n, primeira), c.valor as real, c.taxa, n, PrestacaoExata(c.valor, c.taxa, n));
  }

  lemma PricePlan(p: Plano, v: real, i: real, n: nat, a: real)
    requires PlanoOk(p) && ComJuros(p, Price) && p.taxa == i && p.pmt == Arredonda(a)
    requires v > 0.0 && i > 0.0 && AnnuityWithin(v, i, n as real, a)
    ensures PlanoPrice(p, v, a + p.extra as real, p.pmt as real - a)
  {
    RoundedInstalment(v, i, n as real, a);
  }

  /** The balance before month k+1 against the exact one: each side has drifted by half a cent a month,
      less or more the instalment's own error. */
  predicate EmDia(p: Plano, v: real, a: real, e: real, k: nat, saldo: int) {
    Entre(saldo as real - SaldoExato(v, p.taxa, a, k), Deriva(0.5 + e, p.taxa, k), Deriva(0.5 - e, p.taxa, k))
  }

  /** One month's rounding, seen before the balance is capped at zero. */
  lemma OneMonthClose(p: Plano, v: real, a: real, e: real, k: nat, saldo: int)
    requires PlanoPrice(p, v, a, e) && saldo >= 0 && EmDia(p, v, a, e, k, saldo)
    ensures EmDia(p, v, a, e, k + 1, saldo + JurosDoMes(p, saldo) - (p.pmt + p.extra))
  {
    InterestIsClose(p, saldo);
    OneMonthAt(v, p.taxa, a, e, k, saldo, JurosDoMes(p, saldo), p.pmt + p.extra);
  }

  lemma OneMonthAt(v: real, i: real, a: real, e: real, k: nat, saldo: int, juros: int, pmt: int)
    requires i > 0.0 && pmt as real == a + e && Entre(juros as real - saldo as real * i, 0.5, 0.5)
    requires Entre(saldo as real - SaldoExato(v, i, a, k), Deriva(0.5 + e, i, k), Deriva(0.5 - e, i, k))
    ensures Entre((saldo + juros - pmt) as real - SaldoExato(v, i, a, k + 1), Deriva(0.5 + e, i, k + 1),
                  Deriva(0.5 - e, i, k + 1))
  {
    NextExactBalance(v, i, a, k);
    NextDrift(0.5 + e, i, k);
    NextDrift(0.5 - e, i, k);
    ErrorStep(saldo as real, SaldoExato(v, i, a, k), i, juros as real, a, e,
              Deriva(0.5 + e, i, k), Deriva(0.5 - e, i, k),
              SaldoExato(v, i, a, k + 1), Deriva(0.5 + e, i, k + 1), Deriva(0.5 - e, i, k + 1));
  }

  lemma {:induction false} PriceStaysClose(p: Plano, v: real, a: real, e: real, k: nat, saldo: int, j: nat)
    requires PlanoPrice(p, v, a, e) && saldo >= 0 && EmDia(p, v, a, e, k, saldo)
    requires Linhas(p, k, saldo).Tabela? && j + 1 < |Linhas(p, k, saldo).linhas|
    ensures EmDia(p, v, a, e, k + j + 1, Linhas(p, k, saldo).linhas[j].saldo)
    decreases j
  {
    var l := Linha(p, k, saldo);
    var r := Linhas(p, k + 1, l.saldo).linhas;
    assert Linhas(p, k, saldo).linhas == [l] + r;
    NextBalance(p, k, saldo);
    OneMonthClose(p, v, a, e, k, saldo);
    if j > 0 {
      assert k + 1 + (j - 1) + 1 == k + j + 1;
      PriceStaysClose(p, v, a, e, k + 1, l.saldo, j - 1);
    }
  }

  /** Within the drift d of one cent a month, half of it either way shifted by the instalment's error. */
  predicate NaFaixa(x: real, e: real, d: real) {
    Entre(x, (0.5 + e) * d, (0.5 - e) * d) && Entre(x, d, d)
  }

  lemma BandOfDrift(x: real, e: real, taxa: real, k: nat)
    requires taxa > 0.0 && Entre(e, 0.5, 0.5) && Entre(x, Deriva(0.5 + e, taxa, k), Deriva(0.5 - e, taxa, k))
    ensures NaFaixa(x, e, Deriva(1.0, taxa, k))
  {
    DriftScales(0.5 + e, taxa, k);
    DriftScales(0.5 - e, taxa, k);
    DriftIsPositive(1.0, taxa, k);
    BandAt(x, e, Deriva(1.0, taxa, k), Deriva(0.5 + e, taxa, k), Deriva(0.5 - e, taxa, k));
  }

  lemma BandAt(x: real, e: real, d: real, lo: real, hi: real)
    requires d >= 0.0 && Entre(e, 0.5, 0.5) && Entre(x, lo, hi)
    requires Produto(lo, 0.5 + e, d) && Produto(hi, 0.5 - e, d)
    ensures NaFaixa(x, e, d)
  {
    NonNegativeProduct(0.5 - e, d);
    NonNegativeProduct(0.5 + e, d);
    assert (0.5 - e) * d + (0.5 + e) * d == d;
  }

  /** Rounding moves a Price table, after its k-th row, by at most ((1+i)^k - 1)/i cents from the exact
      annuity with the same extra payment: more exactly, with an instalment e cents above the exact one,
      from 1/2 + e times that below to 1/2 - e times that above. */
  lemma PriceRoundingBound(c: Contrato, n: int, primeira: Data, k: nat)
    requires c.taxa > 0.0 && c.sistema == Price && 1 <= n <= MAX_PARCELAS && n <= c.valor
    ensures CronogramaSpec(c, n, primeira).Tabela?
    ensures var r, a := CronogramaSpec(c, n, primeira).linhas, MensalExato(c, n);
            1 <= k < |r| ==> NaFaixa(r[k - 1].saldo as real - SaldoExato(c.valor as real, c.taxa, a, k), Desvio(c, n),
                                     Deriva(1.0, c.taxa, k))
  {
    ScheduleAlwaysExists(c, n, primeira);
    PricePlanOfContract(c, n, primeira);
    PriceFields(c, n, primeira);
    if 1 <= k < |CronogramaSpec(c, n, primeira).linhas| {
      PriceBand(PlanoDe(c, n, primeira), c.valor as real, MensalExato(c, n), Desvio(c, n), c.valor, k - 1);
    }
  }

  lemma PriceBand(p: Plano, v: real, a: real, e: real, valor: int, j: nat)
    requires PlanoPrice(p, v, a, e) && valor >= 0 && valor as real == v && Linhas(p, 0, valor).Tabela?
    requires j + 1 < |Linhas(p, 0, valor).linhas|
    ensures NaFaixa(Linhas(p, 0, valor).linhas[j].saldo as real - SaldoExato(v, p.taxa, a, j + 1), e,
                    Deriva(1.0, p.taxa, j + 1))
  {
    PriceStaysClose(p, v, a, e, 0, valor, j);
    BandOfDrift(Linhas(p, 0, valor).linhas[j].saldo as real - SaldoExato(v, p.taxa, a, j + 1), e, p.taxa, j + 1);
  }

  lemma {:induction false} LastInstalmentFrom(p: Plano, v: real, a: real, e: real, k: nat, saldo: int)
    requires PlanoPrice(p, v, a, e) && saldo > 0 && EmDia(p, v, a, e, k, saldo)
    requires k < p.n && Linhas(p, k, saldo).Tabela? && |Linhas(p, k, saldo).linhas| == p.n - k
    ensures EmDia(p, v, a, e, p.n, Linhas(p, k, saldo).linhas[p.n - k - 1].valor - (p.pmt + p.extra))
    decreases p.n - k
  {
    var l := Linha(p, k, saldo);
    var r := Linhas(p, k + 1, l.saldo).linhas;
    assert Linhas(p, k, saldo).linhas == [l] + r;
    OneMonthClose(p, v, a, e, k, saldo);
    if k == p.n - 1 {
      LastRowValue(p, saldo);
    } else {
      NextBalance(p, k, saldo);
      LastInstalmentFrom(p, v, a, e, k + 1, l.saldo);
    }
  }

  lemma LastRowValue(p: Plano, saldo: int)
    requires PlanoOk(p) && saldo >= 0
    ensures Linha(p, p.n - 1, saldo).valor == saldo + JurosDoMes(p, saldo)
  {}

  /** The last instalment of a table that runs to month n, which absorbs all the rounding, differs from
      the others and what the exact annuity still owes after month n by no more than the drift of n
      months; without extra payment that is nothing, and it is as close to the exact instalment. */
  lemma PriceLastInstalmentBound(c: Contrato, n: int, primeira: Data)
    requires c.taxa > 0.0 && c.sistema == Price && 1 <= n <= MAX_PARCELAS && n <= c.valor
    ensures CronogramaSpec(c, n, primeira).Tabela?
    ensures var r := CronogramaSpec(c, n, primeira).linhas;
            var q := Mensal(c, n);
            var d, resta := Deriva(1.0, c.taxa, n), SaldoExato(c.valor as real, c.taxa, MensalExato(c, n), n);
            |r| == n ==>
              && NaFaixa((r[n - 1].valor - q) as real - resta, Desvio(c, n), d)
              && (c.extra <= 0 ==>
                    resta == 0.0 && Entre(r[n - 1].valor as real - PrestacaoExata(c.valor, c.taxa, n), d, d))
  {
    ScheduleAlwaysExists(c, n, primeira);
    PricePlanOfContract(c, n, primeira);
    PriceFields(c, n, primeira);
    if |CronogramaSpec(c, n, primeira).linhas| == n {
      LastBand(PlanoDe(c, n, primeira), c.valor as real, MensalExato(c, n), Desvio(c, n), c.valor);
    }
    if c.extra <= 0 {
      EquationOfInstalment(c.valor, c.taxa, n);
      ExactBalanceReachesZero(c.valor as real, c.taxa, n, PrestacaoExata(c.valor, c.taxa, n));
      assert MensalExato(c, n) == PrestacaoExata(c.valor, c.taxa, n);
    }
  }

  lemma LastBand(p: Plano, v: real, a: real, e: real, valor: int)
    requires PlanoPrice(p, v, a, e) && valor > 0 && valor as real == v && Linhas(p, 0, valor).Tabela?
    requires |Linhas(p, 0, valor).linhas| == p.n
    ensures var u, d := Linhas(p, 0, valor).linhas[p.n - 1].valor, Deriva(1.0, p.taxa, p.n);
            && NaFaixa((u - (p.pmt + p.extra)) as real - SaldoExato(v, p.taxa, a, p.n), e, d)
            && (SaldoExato(v, p.taxa, a, p.n) == 0.0 ==> Entre(u as real - a, d, d))
  {
    LastInstalmentFrom(p, v, a, e, 0, valor);
    var u := Linhas(p, 0, valor).linhas[p.n - 1].valor;
    BandOfLast((u - (p.pmt + p.extra)) as real - SaldoExato(v, p.taxa, a, p.n), e, p.taxa, p.n);
  }

  lemma BandOfLast(x: real, e: real, taxa: real, n: nat)
    requires taxa > 0.0 && n >= 1 && Entre(e, 0.5, 0.5)
    requires Entre(x, Deriva(0.5 + e, taxa, n), Deriva(0.5 - e, taxa, n))
    ensures NaFaixa(x, e, Deriva(1.0, taxa, n)) && Entre(x + e, Deriva(1.0, taxa, n), Deriva(1.0, taxa, n))
  {
    BandOfDrift(x, e, taxa, n);
    DriftGrows(1.0, taxa, 1, n);
    assert Deriva(1.0, taxa, 0) == 0.0;
    AgainstExact(x, e, Deriva(1.0, taxa, n));
  }

  lemma AgainstExact(x: real, e: real, d: real)
    requires d >= 1.0 && Entre(e, 0.5, 0.5) && NaFaixa(x, e, d)
    ensures Entre(x + e, d, d)
  {
    NonNegativeProduct(0.5 - e, d - 1.0);
    NonNegativeProduct(0.5 + e, d - 1.0);
    assert (0.5 - e) * (d - 1.0) == (0.5 - e) * d - 0.5 + e;
    assert (0.5 + e) * (d - 1.0) == (0.5 + e) * d - 0.5 - e;
    assert (0.5 - e) * d + (0.5 + e) * d == d;
  }
}
