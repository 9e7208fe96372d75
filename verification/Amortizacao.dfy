/** What every amortisation table keeps, whatever the branch, the rate and the extra payment. */
module Amortizacao {
  import opened Comum
  import opened Calendario
  import opened Centavos
  import opened Financiamento
  import opened Reais

  /** What Validate and the first checks of Cronograma let through. */
  predicate ContratoAceito(c: Contrato, n: int) {
    1 <= n <= MAX_PARCELAS && n <= c.valor <= MAX_MONEY && 0 <= c.extra <= MAX_MONEY && c.taxa >= 0.0
  }

  predicate PlanoOk(p: Plano) {
    p.n >= 1 && p.taxa >= 0.0 && p.extra >= 0 && p.base >= 0 && p.resto >= 0
  }

  lemma PlanOfContract(c: Contrato, n: nat, primeira: Data)
    requires c.taxa >= 0.0 && 1 <= n <= c.valor
    ensures var p := PlanoDe(c, n, primeira);
            && PlanoOk(p) && p.n == n && p.base >= 1 && p.base * n + p.resto == c.valor && p.resto < n
  {
    var q := c.valor / n;
    assert c.valor == n * q + c.valor % n;
  }

  // ----- rounding -----

  lemma RoundIsMonotone(x: real, y: real)
    requires 0.0 <= x <= y
    ensures 0 <= Arredonda(x) <= Arredonda(y)
  {
  }

  lemma RoundIsClose(x: real)
    requires 0.0 <= x
    ensures -0.5 <= Arredonda(x) as real - x <= 0.5
  {
  }

  lemma ProductIsMonotone(a: real, b: real, t: real)
    requires 0.0 <= a <= b && t >= 0.0
    ensures 0.0 <= a * t <= b * t
  {
  }

  lemma InterestIsMonotone(p: Plano, s: int, t: int)
    requires p.taxa >= 0.0 && 0 <= s <= t
    ensures 0 <= JurosDoMes(p, s) <= JurosDoMes(p, t)
  {
    ProductIsMonotone(s as real, t as real, p.taxa);
    RoundIsMonotone(s as real * p.taxa, t as real * p.taxa);
  }

  // ----- the Price instalment is never too small -----

  /** n * i <= (1+i)^n - 1 <= n * i * (1+i)^n */
  predicate Bernoulli(n: real, i: real, f: real) {
    1.0 + n * i <= f <= 1.0 + n * i * f
  }

  lemma {:induction false} BernoulliBound(i: real, n: nat)
    requires i >= 0.0
    ensures Bernoulli(n as real, i, Pot(1.0 + i, n))
  {
    if n > 0 {
      BernoulliBound(i, n - 1);
      BernoulliStep(i, n as real, Pot(1.0 + i, n - 1), Pot(1.0 + i, n));
    }
  }

  lemma BernoulliStep(i: real, n: real, q: real, f: real)
    requires i >= 0.0 && n >= 1.0 && q >= 1.0 && f == (1.0 + i) * q
    requires Bernoulli(n - 1.0, i, q)
    ensures Bernoulli(n, i, f)
  {
    var iq := i * q;
    assert f == q + iq;
    NonNegativeProduct(i, q - 1.0);
    assert iq - i == i * (q - 1.0);
    var ni := n * i;
    NonNegativeProduct(n, i);
    NonNegativeProduct(i, q);
    NonNegativeProduct(ni, iq);
    assert ni * f == ni * q + ni * iq;
    assert ni * q == (n - 1.0) * i * q + iq;
    assert ni == (n - 1.0) * i + i;
  }

  /** V * i < A and V <= n * A <= n * V * i + V for the exact instalment A. */
  predicate AnnuityWithin(v: real, i: real, n: real, a: real) {
    v * i < a && v <= n * a <= n * (v * i) + v
  }

  lemma AnnuityEquation(valor: int, taxa: real, n: nat)
    requires taxa > 0.0 && n >= 1
    ensures PrestacaoExata(valor, taxa, n) * (Pot(1.0 + taxa, n) - 1.0) == valor as real * taxa * Pot(1.0 + taxa, n)
  {
    var f := Pot(1.0 + taxa, n);
    QuotientTimes(valor as real * taxa * f, f - 1.0);
  }

  lemma AnnuityBounds(c: Contrato, n: nat)
    requires c.taxa > 0.0 && 1 <= n <= c.valor
    ensures AnnuityWithin(c.valor as real, c.taxa, n as real, PrestacaoExata(c.valor, c.taxa, n))
  {
    var f := Pot(1.0 + c.taxa, n);
    BernoulliBound(c.taxa, n);
    AnnuityEquation(c.valor, c.taxa, n);
    FractionBoundsAt(c.valor as real, c.taxa, f, n as real, PrestacaoExata(c.valor, c.taxa, n));
  }

  lemma FractionBoundsAt(v: real, i: real, f: real, n: real, a: real)
    requires v > 0.0 && i > 0.0 && f > 1.0 && n >= 1.0 && a * (f - 1.0) == v * i * f
    requires Bernoulli(n, i, f)
    ensures AnnuityWithin(v, i, n, a)
  {
    assert f - 1.0 + 1.0 == f;
    FractionBounds(v, i, f - 1.0, n, a);
  }

  lemma QuotientTimes(x: real, g: real)
    requires g != 0.0
    ensures x / g * g == x
  {}

  lemma FractionBounds(v: real, i: real, g: real, n: real, a: real)
    requires v > 0.0 && i > 0.0 && g > 0.0 && n >= 1.0 && a * g == v * i * (g + 1.0)
    requires Bernoulli(n, i, g + 1.0)
    ensures AnnuityWithin(v, i, n, a)
  {
    var vi := v * i;
    PositiveProduct(v, i);
    assert a * g == vi * g + vi;
    CancelFactor(vi, a, g);
    LowerBound(v, i, g, n, a);
    UpperBound(v, i, g, n, a);
  }

  lemma LowerBound(v: real, i: real, g: real, n: real, a: real)
    requires v > 0.0 && g > 0.0 && a * g == v * i * (g + 1.0) && g <= n * i * (g + 1.0)
    ensures v <= n * a
  {
    var nif := n * i * (g + 1.0);
    NonNegativeProduct(v, nif - g);
    assert v * nif == n * (v * i * (g + 1.0));
    assert n * a * g == n * (a * g);
    CancelFactor(v, n * a, g);
  }

  lemma UpperBound(v: real, i: real, g: real, n: real, a: real)
    requires v > 0.0 && g > 0.0 && a * g == v * i * (g + 1.0) && n * i <= g
    ensures n * a <= n * (v * i) + v
  {
    var vi := v * i;
    NonNegativeProduct(v, g - n * i);
    assert v * (n * i) == n * vi;
    assert a * g == vi * g + vi;
    assert n * a * g == n * (vi * g) + n * vi;
    assert (n * vi + v) * g == n * (vi * g) + v * g;
    CancelFactor(n * a, n * vi + v, g);
  }

  /** The rounded instalment is at least a cent and covers the interest of any balance up to V. */
  lemma InstalmentCoversInterest(c: Contrato, n: nat)
    requires c.taxa > 0.0 && 1 <= n <= c.valor
    ensures Pmt(c.valor, c.taxa, n) >= 1
    ensures Pmt(c.valor, c.taxa, n) >= Arredonda(c.valor as real * c.taxa)
  {
    AnnuityBounds(c, n);
    RoundedCovers(c.valor as real, c.taxa, n as real, PrestacaoExata(c.valor, c.taxa, n));
  }

  lemma RoundedCovers(v: real, i: real, n: real, a: real)
    requires v >= n >= 1.0 && i > 0.0 && AnnuityWithin(v, i, n, a)
    ensures Arredonda(a) >= 1 && Arredonda(a) >= Arredonda(v * i)
  {
    PositiveProduct(v, i);
    AtLeastOne(n, v, a);
    RoundIsMonotone(1.0, a);
    assert Arredonda(1.0) == 1;
    RoundIsMonotone(v * i, a);
  }

  lemma AtLeastOne(n: real, v: real, a: real)
    requires n >= 1.0 && v >= n && n * a >= v
    ensures a >= 1.0
  {
    CancelFactor(1.0, a, n);
  }

  // ----- conservation -----

  /** The balance a month leaves. */
  lemma NextBalance(p: Plano, k: nat, saldo: int)
    requires PlanoOk(p) && saldo >= 0 && !JurosEngolemParcela(p, k, saldo)
    ensures Linha(p, k, saldo).saldo
         == if k == p.n - 1 then 0 else NaoNegativo(saldo - Prevista(p, k, saldo) - p.extra)
    ensures 0 <= Linha(p, k, saldo).amortizacao == saldo - Linha(p, k, saldo).saldo
    ensures Linha(p, k, saldo).juros == JurosDoMes(p, saldo) >= 0
  {
    InterestIsMonotone(p, saldo, saldo);
  }

  /** A table that starts from `saldo` in month k: numbered and dated month by month, no negative
      interest or amortisation, each balance the previous one less the amortisation, zero at the end. */
  predicate Consistente(r: seq<ParcelaProjetada>, k: nat, primeira: Data, saldo: int) {
    if r == [] then saldo == 0
    else
      && r[0].numero == k + 1
      && r[0].data == AddMonthsClamped(primeira, k)
      && r[0].juros >= 0
      && r[0].amortizacao >= 0
      && r[0].valor == r[0].juros + r[0].amortizacao
      && r[0].saldo == saldo - r[0].amortizacao >= 0
      && Consistente(r[1..], k + 1, primeira, r[0].saldo)
  }

  lemma {:induction false} TableIsConsistent(p: Plano, k: nat, saldo: int)
    requires PlanoOk(p) && saldo >= 0 && (k < p.n || saldo == 0) && Linhas(p, k, saldo).Tabela?
    ensures Consistente(Linhas(p, k, saldo).linhas, k, p.primeira, saldo)
    ensures |Linhas(p, k, saldo).linhas| <= NaoNegativo(p.n - k)
    ensures saldo > 0 ==> |Linhas(p, k, saldo).linhas| >= 1
    decreases p.n - k
  {
    if saldo > 0 {
      var l := Linha(p, k, saldo);
      NextBalance(p, k, saldo);
      TableIsConsistent(p, k + 1, l.saldo);
      assert Linhas(p, k, saldo).linhas[1..] == Linhas(p, k + 1, l.saldo).linhas;
    }
  }

  lemma {:induction false} ConsistentTotals(r: seq<ParcelaProjetada>, k: nat, primeira: Data, saldo: int)
    requires Consistente(r, k, primeira, saldo)
    ensures SomaAmortizacao(r) == saldo && SomaValor(r) == SomaJuros(r) + saldo && SomaJuros(r) >= 0
  {
    if r != [] {
      ConsistentTotals(r[1..], k + 1, primeira, r[0].saldo);
    }
  }

  lemma {:induction false} ConsistentRows(r: seq<ParcelaProjetada>, k: nat, primeira: Data, saldo: int, j: nat)
    requires Consistente(r, k, primeira, saldo) && j < |r|
    ensures r[j].numero == k + j + 1 && r[j].data == AddMonthsClamped(primeira, k + j)
    ensures 0 <= r[j].amortizacao <= saldo && 0 <= r[j].saldo <= saldo && r[j].juros >= 0
    ensures r[j].valor == r[j].juros + r[j].amortizacao
    ensures j + 1 < |r| ==> r[j + 1].saldo <= r[j].saldo
    ensures j + 1 == |r| ==> r[j].saldo == 0
  {
    if j > 0 {
      ConsistentRows(r[1..], k + 1, primeira, r[0].saldo, j - 1);
    } else if |r| > 1 {
      assert r[1] == r[1..][0];
    }
  }

  lemma {:induction false} NeverRefusedFrom(p: Plano, k: nat, saldo: int, teto: int)
    requires PlanoOk(p) && 0 <= saldo <= teto
    requires ComJuros(p, Price) ==> JurosDoMes(p, teto) <= p.pmt
    ensures Linhas(p, k, saldo).Tabela?
    decreases p.n - k
  {
    if k < p.n && saldo > 0 {
      InterestIsMonotone(p, saldo, teto);
      NextBalance(p, k, saldo);
      NeverRefusedFrom(p, k + 1, Linha(p, k, saldo).saldo, teto);
    }
  }

  /** Neither error of the Price branch ever happens: a contract with at least a cent for each
      instalment always gets its table. */
  lemma ScheduleAlwaysExists(c: Contrato, n: int, primeira: Data)
    requires c.taxa >= 0.0
    ensures CronogramaSpec(c, n, primeira).Tabela? <==> 1 <= n <= MAX_PARCELAS && n <= c.valor
  {
    if 1 <= n <= MAX_PARCELAS && n <= c.valor {
      var p := PlanoDe(c, n, primeira);
      PlanOfContract(c, n, primeira);
      PlannedInterestIsCovered(c, n, primeira);
      NeverRefusedFrom(p, 0, c.valor, c.valor);
    }
  }

  lemma PlannedInterestIsCovered(c: Contrato, n: nat, primeira: Data)
    requires c.taxa >= 0.0 && 1 <= n <= c.valor
    ensures var p := PlanoDe(c, n, primeira);
            ComJuros(p, Price) ==> p.pmt >= 1 && JurosDoMes(p, c.valor) <= p.pmt
  {
    if c.taxa > 0.0 {
      InstalmentCoversInterest(c, n);
    }
  }

  /** Every table amortises exactly the amount financed, in at most n rows, and ends at zero. */
  lemma ScheduleConserves(c: Contrato, n: int, primeira: Data)
    requires c.taxa >= 0.0 && CronogramaSpec(c, n, primeira).Tabela?
    ensures var r := CronogramaSpec(c, n, primeira).linhas;
            && Consistente(r, 0, primeira, c.valor)
            && 1 <= |r| <= n && r[|r| - 1].saldo == 0
            && SomaAmortizacao(r) == c.valor && SomaValor(r) - SomaJuros(r) == c.valor
  {
    var r := CronogramaSpec(c, n, primeira).linhas;
    PlanOfContract(c, n, primeira);
    TableIsConsistent(PlanoDe(c, n, primeira), 0, c.valor);
    ConsistentTotals(r, 0, primeira, c.valor);
    ConsistentRows(r, 0, primeira, c.valor, |r| - 1);
  }

  // ----- a larger extra payment -----

  /** Two plans of one contract, the second with at least the first one's extra payment. */
  predicate MaisExtra(p: Plano, q: Plano) {
    q == p.(extra := q.extra) && p.extra <= q.extra
  }

  lemma BalancesStayOrdered(p: Plano, q: Plano, k: nat, s: int, t: int)
    requires PlanoOk(p) && MaisExtra(p, q) && 0 <= t <= s
    requires !JurosEngolemParcela(p, k, s) && !JurosEngolemParcela(q, k, t)
    ensures 0 <= Linha(q, k, t).saldo <= Linha(p, k, s).saldo
    ensures Linha(q, k, t).juros <= Linha(p, k, s).juros
  {
    NextBalance(p, k, s);
    NextBalance(q, k, t);
    PlannedIsOrdered(p, q, k, s, t);
  }

  lemma PlannedIsOrdered(p: Plano, q: Plano, k: nat, s: int, t: int)
    requires PlanoOk(p) && MaisExtra(p, q) && 0 <= t <= s
    ensures t - Prevista(q, k, t) <= s - Prevista(p, k, s)
    ensures JurosDoMes(q, t) <= JurosDoMes(p, s)
  {
    InterestIsMonotone(p, t, s);
    assert JurosDoMes(q, t) == JurosDoMes(p, t);
  }

  predicate LinhasMenores(menor: seq<ParcelaProjetada>, maior: seq<ParcelaProjetada>) {
    |menor| <= |maior|
    && forall j :: 0 <= j < |menor| ==> menor[j].saldo <= maior[j].saldo && menor[j].juros <= maior[j].juros
  }

  lemma {:induction false} MoreExtraFrom(p: Plano, q: Plano, k: nat, s: int, t: int)
    requires PlanoOk(p) && MaisExtra(p, q) && 0 <= t <= s && (k < p.n || s == 0)
    requires Linhas(p, k, s).Tabela? && Linhas(q, k, t).Tabela?
    ensures LinhasMenores(Linhas(q, k, t).linhas, Linhas(p, k, s).linhas)
    ensures SomaJuros(Linhas(q, k, t).linhas) <= SomaJuros(Linhas(p, k, s).linhas)
    decreases p.n - k
  {
    TableIsConsistent(p, k, s);
    ConsistentTotals(Linhas(p, k, s).linhas, k, p.primeira, s);
    if t > 0 {
      var a, b := Linha(p, k, s), Linha(q, k, t);
      BalancesStayOrdered(p, q, k, s, t);
      LastMonthPaysOff(p, k, s);
      MoreExtraFrom(p, q, k + 1, a.saldo, b.saldo);
      RowInFront(b, Linhas(q, k + 1, b.saldo).linhas, a, Linhas(p, k + 1, a.saldo).linhas);
    }
  }

  lemma LastMonthPaysOff(p: Plano, k: nat, s: int)
    requires PlanoOk(p) && k < p.n && s >= 0 && !JurosEngolemParcela(p, k, s)
    ensures k + 1 < p.n || Linha(p, k, s).saldo == 0
  {
    NextBalance(p, k, s);
  }

  lemma RowInFront(b: ParcelaProjetada, menor: seq<ParcelaProjetada>, a: ParcelaProjetada, maior: seq<ParcelaProjetada>)
    requires b.saldo <= a.saldo && b.juros <= a.juros
    requires LinhasMenores(menor, maior) && SomaJuros(menor) <= SomaJuros(maior)
    ensures LinhasMenores([b] + menor, [a] + maior) && SomaJuros([b] + menor) <= SomaJuros([a] + maior)
  {
    assert ([b] + menor)[1..] == menor && ([a] + maior)[1..] == maior;
  }

  /** Paying more extra each month never leaves a larger balance after any month, never lengthens
      the contract and never costs more, in interest or in all. */
  lemma MoreExtraNeverCostsMore(c: Contrato, extra: int, n: int, primeira: Data)
    requires c.taxa >= 0.0 && 0 <= c.extra <= extra && 1 <= n <= MAX_PARCELAS && n <= c.valor
    ensures var d := c.(extra := extra);
            && CronogramaSpec(c, n, primeira).Tabela? && CronogramaSpec(d, n, primeira).Tabela?
            && var r, r' := CronogramaSpec(c, n, primeira).linhas, CronogramaSpec(d, n, primeira).linhas;
               LinhasMenores(r', r) && SomaJuros(r') <= SomaJuros(r) && SomaValor(r') <= SomaValor(r)
  {
    var d := c.(extra := extra);
    ScheduleAlwaysExists(c, n, primeira);
    ScheduleAlwaysExists(d, n, primeira);
    SamePlanButExtra(c, extra, n, primeira);
    PlanOfContract(c, n, primeira);
    MoreExtraFrom(PlanoDe(c, n, primeira), PlanoDe(d, n, primeira), 0, c.valor, c.valor);
    ScheduleConserves(c, n, primeira);
    ScheduleConserves(d, n, primeira);
  }

  lemma SamePlanButExtra(c: Contrato, extra: int, n: nat, primeira: Data)
    requires c.taxa >= 0.0 && 1 <= n && 0 <= c.extra <= extra
    ensures MaisExtra(PlanoDe(c, n, primeira), PlanoDe(c.(extra := extra), n, primeira))
  {
  }
}
