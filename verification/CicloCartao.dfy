/** The billing cycle of a credit card (internal/core/domain/cartao.go). */
module CicloCartao {
  import opened Comum
  import opened Calendario

  datatype Cartao = Cartao(diaFechamento: int, diaVencimento: int)

  const MAX_DIA_CICLO := 31

  /** What NewCartao accepts. */
  predicate CartaoValido(c: Cartao) {
    1 <= c.diaFechamento <= MAX_DIA_CICLO && 1 <= c.diaVencimento <= MAX_DIA_CICLO
  }

  function UltimoDia(primeiroDoMes: Data): int {
    AddDate(primeiroDoMes, 1, -1).dia
  }

  function DiaNoMes(ref: Data, dia: int): Data {
    var primeiro := TimeDate(ref.mes, 1);
    TimeDate(ref.mes, Min(dia, UltimoDia(primeiro)))
  }

  function FechamentoDoMes(c: Cartao, ref: Data): Data {
    DiaNoMes(ref, c.diaFechamento)
  }

  function MesesAteVencer(c: Cartao): int {
    if c.diaVencimento > c.diaFechamento then 0 else 1
  }

  function VencimentoDoFechamento(c: Cartao, fechamento: Data): Data {
    DiaNoMes(AddMonthsClamped(fechamento, MesesAteVencer(c)), c.diaVencimento)
  }

  function FaturaDaCompra(c: Cartao, dataCompra: Data): Data {
    var fechamento := FechamentoDoMes(c, dataCompra);
    if Antes(fechamento, dataCompra)
    then VencimentoDoFechamento(c, FechamentoDoMes(c, AddMonthsClamped(dataCompra, 1)))
    else VencimentoDoFechamento(c, fechamento)
  }

  function MelhorDiaCompra(c: Cartao, ref: Data): Data {
    AddDate(FechamentoDoMes(c, ref), 0, 1)
  }

  function FimDoCiclo(c: Cartao, vencimento: Data): Data {
    FechamentoDoMes(c, AddMonthsClamped(vencimento, -MesesAteVencer(c)))
  }

  function InicioDoCiclo(c: Cartao, vencimento: Data): Data {
    AddDate(FechamentoDoMes(c, AddMonthsClamped(FimDoCiclo(c, vencimento), -1)), 0, 1)
  }

  /** CartaoService.vencimentoDe: the due date of the invoice of a month (the competence). */
  function VencimentoDe(c: Cartao, competencia: int): Data {
    var primeiro := AddDate(TimeDate(competencia, 1), 1, -1).dia;
    TimeDate(competencia, if c.diaVencimento > primeiro then primeiro else c.diaVencimento)
  }

  /** The closing date of a month. */
  function Fechamento(c: Cartao, mes: int): Data {
    Data(mes, Min(c.diaFechamento, DiasNoMes(mes)))
  }

  /** The due date of a month. */
  function Vencimento(c: Cartao, mes: int): Data {
    Data(mes, Min(c.diaVencimento, DiasNoMes(mes)))
  }

  predicate NoCiclo(c: Cartao, vencimento: Data, d: Data) {
    AteOuIgual(InicioDoCiclo(c, vencimento), d) && AteOuIgual(d, FimDoCiclo(c, vencimento))
  }

  // ----- every operation of the card as a function of month numbers -----

  lemma DayInMonthClamps(ref: Data, dia: int)
    requires dia >= 1
    ensures DiaNoMes(ref, dia) == Data(ref.mes, Min(dia, DiasNoMes(ref.mes)))
  {
    LastDayOfMonth(ref.mes);
  }

  /** The due date of a month is the card's due day, or the last day of a shorter month. */
  lemma DueOfMonth(c: Cartao, mes: int)
    requires CartaoValido(c)
    ensures VencimentoDe(c, mes) == Vencimento(c, mes) && Valida(Vencimento(c, mes))
    ensures VencimentoDe(c, mes) == Data(mes, Min(c.diaVencimento, DiasNoMes(mes)))
  {
    LastDayOfMonth(mes);
  }

  lemma DueOfClosing(c: Cartao, t: Data)
    requires CartaoValido(c) && Valida(t)
    ensures VencimentoDoFechamento(c, t) == Vencimento(c, t.mes + MesesAteVencer(c))
  {
    AddMonthsClampedClamps(t, MesesAteVencer(c));
    DayInMonthClamps(AddMonthsClamped(t, MesesAteVencer(c)), c.diaVencimento);
  }

  /** The closing date of a month is the card's closing day, or the last day of a shorter month. */
  lemma ClosingOfMonth(c: Cartao, t: Data)
    requires CartaoValido(c)
    ensures FechamentoDoMes(c, t) == Fechamento(c, t.mes) && Valida(Fechamento(c, t.mes))
    ensures FechamentoDoMes(c, t) == Data(t.mes, Min(c.diaFechamento, DiasNoMes(t.mes)))
  {
    DayInMonthClamps(t, c.diaFechamento);
  }

  lemma ClosingMonthsAway(c: Cartao, t: Data, n: int)
    requires CartaoValido(c) && Valida(t)
    ensures FechamentoDoMes(c, AddMonthsClamped(t, n)) == Fechamento(c, t.mes + n)
  {
    AddMonthsClampedClamps(t, n);
    ClosingOfMonth(c, AddMonthsClamped(t, n));
  }

  lemma CycleOfDue(c: Cartao, v: Data)
    requires CartaoValido(c) && Valida(v)
    ensures FimDoCiclo(c, v) == Fechamento(c, v.mes - MesesAteVencer(c))
    ensures InicioDoCiclo(c, v) == AddDate(Fechamento(c, v.mes - MesesAteVencer(c) - 1), 0, 1)
  {
    ClosingMonthsAway(c, v, -MesesAteVencer(c));
    ClosingMonthsAway(c, FimDoCiclo(c, v), -1);
  }

  /** The month whose closing takes a purchase made on d. */
  function MesDoFechamento(c: Cartao, d: Data): int {
    d.mes + if Antes(Fechamento(c, d.mes), d) then 1 else 0
  }

  lemma InvoiceOfPurchase(c: Cartao, d: Data)
    requires CartaoValido(c) && Valida(d)
    ensures FaturaDaCompra(c, d) == Vencimento(c, MesDoFechamento(c, d) + MesesAteVencer(c))
  {
    ClosingOfMonth(c, d);
    ClosingMonthsAway(c, d, 1);
    DueOfClosing(c, FechamentoDoMes(c, d));
    DueOfClosing(c, FechamentoDoMes(c, AddMonthsClamped(d, 1)));
  }

  lemma InCycleByMonths(c: Cartao, v: Data, d: Data)
    requires CartaoValido(c) && Valida(d) && Valida(v)
    ensures NoCiclo(c, v, d) <==> v.mes == MesDoFechamento(c, d) + MesesAteVencer(c)
  {
    var mes := v.mes - MesesAteVencer(c);
    CycleOfDue(c, v);
    ClosingOfMonth(c, Data(mes - 1, 1));
    DayAfter(Fechamento(c, mes - 1), d);
    ClosingMonthIff(c, mes, d);
  }

  lemma DayAfter(f: Data, d: Data)
    requires Valida(f) && Valida(d)
    ensures AteOuIgual(AddDate(f, 0, 1), d) <==> Antes(f, d)
  {
    NextDay(f);
  }

  lemma ClosingMonthIff(c: Cartao, mes: int, d: Data)
    requires CartaoValido(c) && Valida(d)
    ensures Antes(Fechamento(c, mes - 1), d) && AteOuIgual(d, Fechamento(c, mes)) <==> mes == MesDoFechamento(c, d)
  {
  }

  // ----- the billing cycle -----

  /** A purchase falls in the invoice due on v exactly when its date lies in the cycle of v. */
  lemma PurchaseFallsInItsCycle(c: Cartao, competencia: int, d: Data)
    requires CartaoValido(c) && Valida(d)
    ensures FaturaDaCompra(c, d) == VencimentoDe(c, competencia)
            <==> NoCiclo(c, VencimentoDe(c, competencia), d)
  {
    DueOfMonth(c, competencia);
    InCycleByMonths(c, Vencimento(c, competencia), d);
    InvoiceOfPurchase(c, d);
  }

  /** Every date lies in exactly one cycle, that of its own invoice. */
  lemma CyclesPartitionTheCalendar(c: Cartao, d: Data)
    requires CartaoValido(c) && Valida(d)
    ensures forall m: int :: NoCiclo(c, VencimentoDe(c, m), d) <==> m == FaturaDaCompra(c, d).mes
  {
    InvoiceOfPurchase(c, d);
    forall m: int
      ensures NoCiclo(c, VencimentoDe(c, m), d) <==> m == FaturaDaCompra(c, d).mes
    {
      DueOfMonth(c, m);
      InCycleByMonths(c, VencimentoDe(c, m), d);
    }
  }

  /** Consecutive cycles abut: the next one starts the day after this one ends. */
  lemma CyclesAbut(c: Cartao, competencia: int)
    requires CartaoValido(c)
    ensures var fim := FimDoCiclo(c, VencimentoDe(c, competencia));
            var inicio := InicioDoCiclo(c, VencimentoDe(c, competencia + 1));
            inicio == AddDate(fim, 0, 1) && NumeroDoDia(inicio) == NumeroDoDia(fim) + 1
  {
    DueOfMonth(c, competencia);
    DueOfMonth(c, competencia + 1);
    CycleOfDue(c, VencimentoDe(c, competencia));
    CycleOfDue(c, VencimentoDe(c, competencia + 1));
    NextDay(FimDoCiclo(c, VencimentoDe(c, competencia)));
  }

  /** What a closing falls due on is the card's first due date after it. The two are one day exactly where
      a short month ends on both, the due day being the later of the card's two days. */
  lemma DueIsFirstAfterClosing(c: Cartao, ref: Data)
    requires CartaoValido(c) && Valida(ref)
    ensures var f := FechamentoDoMes(c, ref);
            var v := VencimentoDoFechamento(c, f);
            && v == VencimentoDe(c, v.mes)
            && (v == f <==> c.diaVencimento > c.diaFechamento >= DiasNoMes(ref.mes))
            && (v != f ==> Antes(f, v))
            && forall m: int :: Antes(f, VencimentoDe(c, m)) ==> AteOuIgual(v, VencimentoDe(c, m))
  {
    var f := FechamentoDoMes(c, ref);
    ClosingOfMonth(c, ref);
    DueOfClosing(c, f);
    DueOfMonth(c, VencimentoDoFechamento(c, f).mes);
    forall m: int | Antes(f, VencimentoDe(c, m))
      ensures AteOuIgual(VencimentoDoFechamento(c, f), VencimentoDe(c, m))
    {
      DueOfMonth(c, m);
    }
  }

  /** A purchase goes to the invoice of the card's first closing on or after its date. */
  lemma PurchaseGoesToFirstClosing(c: Cartao, d: Data)
    requires CartaoValido(c) && Valida(d)
    ensures var f := FimDoCiclo(c, FaturaDaCompra(c, d));
            && f == FechamentoDoMes(c, f) && AteOuIgual(d, f)
            && FaturaDaCompra(c, d) == VencimentoDoFechamento(c, f)
            && forall t: Data :: AteOuIgual(d, FechamentoDoMes(c, t)) ==> AteOuIgual(f, FechamentoDoMes(c, t))
  {
    var f := ClosingOfPurchase(c, d);
    forall t: Data | AteOuIgual(d, FechamentoDoMes(c, t))
      ensures AteOuIgual(f, FechamentoDoMes(c, t))
    {
      NoEarlierClosing(c, d, f, t);
    }
  }

  lemma ClosingOfPurchase(c: Cartao, d: Data) returns (f: Data)
    requires CartaoValido(c) && Valida(d)
    ensures f == FimDoCiclo(c, FaturaDaCompra(c, d)) == Fechamento(c, MesDoFechamento(c, d)) == FechamentoDoMes(c, f)
    ensures AteOuIgual(d, f) && FaturaDaCompra(c, d) == VencimentoDoFechamento(c, f)
  {
    f := Fechamento(c, MesDoFechamento(c, d));
    ClosingOfMonth(c, f);
    ClosingOfItsDue(c, f);
    DueOfPurchase(c, d, f);
  }

  lemma DueOfPurchase(c: Cartao, d: Data, f: Data)
    requires CartaoValido(c) && Valida(d) && f == Fechamento(c, MesDoFechamento(c, d))
    ensures AteOuIgual(d, f) && FaturaDaCompra(c, d) == VencimentoDoFechamento(c, f)
  {
    ClosingOfMonth(c, f);
    DueOfClosing(c, f);
    InvoiceOfPurchase(c, d);
  }

  lemma NoEarlierClosing(c: Cartao, d: Data, f: Data, t: Data)
    requires CartaoValido(c) && Valida(d) && f == Fechamento(c, MesDoFechamento(c, d))
    requires AteOuIgual(d, FechamentoDoMes(c, t))
    ensures AteOuIgual(f, FechamentoDoMes(c, t))
  {
    ClosingOfMonth(c, t);
  }

  /** Going back from a due date to its closing and forward again changes nothing. */
  lemma DueOfItsClosing(c: Cartao, competencia: int)
    requires CartaoValido(c)
    ensures VencimentoDoFechamento(c, FimDoCiclo(c, VencimentoDe(c, competencia)))
         == VencimentoDe(c, competencia)
  {
    DueOfMonth(c, competencia);
    ClosingOfDue(c, competencia);
    DueOfClosing(c, Fechamento(c, competencia - MesesAteVencer(c)));
  }

  lemma ClosingOfDue(c: Cartao, mes: int)
    requires CartaoValido(c)
    ensures FimDoCiclo(c, Vencimento(c, mes)) == Fechamento(c, mes - MesesAteVencer(c))
    ensures Valida(Fechamento(c, mes - MesesAteVencer(c)))
  {
    DueOfMonth(c, mes);
    CycleOfDue(c, Vencimento(c, mes));
  }

  /** Going forward from a closing date to its due date and back changes nothing either. */
  lemma ClosingOfItsDue(c: Cartao, ref: Data)
    requires CartaoValido(c) && Valida(ref)
    ensures var f := FechamentoDoMes(c, ref);
            FimDoCiclo(c, VencimentoDoFechamento(c, f)) == f
  {
    ClosingOfMonth(c, ref);
    var f := Fechamento(c, ref.mes);
    DueOfClosing(c, f);
    DueOfMonth(c, ref.mes + MesesAteVencer(c));
    CycleOfDue(c, VencimentoDoFechamento(c, f));
  }

  /** An invoice never falls due before it closes, and a later closing falls due later. */
  lemma DueDatesIncrease(c: Cartao, a: Data, b: Data)
    requires CartaoValido(c) && Valida(a) && Valida(b) && a.mes < b.mes
    ensures var f, g := FechamentoDoMes(c, a), FechamentoDoMes(c, b);
            && Antes(VencimentoDoFechamento(c, f), VencimentoDoFechamento(c, g))
            && AteOuIgual(f, VencimentoDoFechamento(c, f))
  {
    ClosingOfMonth(c, a);
    ClosingOfMonth(c, b);
    DueOfClosing(c, FechamentoDoMes(c, a));
    DueOfClosing(c, FechamentoDoMes(c, b));
  }

  /** A later purchase never falls due earlier. */
  lemma InvoicesFollowPurchases(c: Cartao, d: Data, e: Data)
    requires CartaoValido(c) && Valida(d) && Valida(e) && AteOuIgual(d, e)
    ensures AteOuIgual(FaturaDaCompra(c, d), FaturaDaCompra(c, e))
  {
    InvoiceOfPurchase(c, d);
    InvoiceOfPurchase(c, e);
  }

  /** MelhorDiaCompra is the first day of its cycle: every earlier purchase falls due earlier, so
      no purchase on the same invoice has longer to pay. */
  lemma BestDayHasLongestTerm(c: Cartao, ref: Data, d: Data)
    requires CartaoValido(c) && Valida(ref) && Valida(d)
    ensures var m := MelhorDiaCompra(c, ref);
            Antes(d, m) <==> Antes(FaturaDaCompra(c, d), FaturaDaCompra(c, m))
  {
    var m := MelhorDiaCompra(c, ref);
    BestDayMonth(c, ref, d);
    InvoiceOfPurchase(c, d);
    InvoiceOfPurchase(c, m);
  }

  lemma BestDayMonth(c: Cartao, ref: Data, d: Data)
    requires CartaoValido(c) && Valida(ref) && Valida(d)
    ensures var m := MelhorDiaCompra(c, ref);
            Antes(d, m) <==> MesDoFechamento(c, d) < MesDoFechamento(c, m)
  {
    var f := Fechamento(c, ref.mes);
    var m := MelhorDiaCompra(c, ref);
    ClosingOfMonth(c, ref);
    NextDay(f);
    assert AteOuIgual(m, m) && AteOuIgual(m, d) <==> Antes(f, d);
    OrderIsDayOrder(m, Fechamento(c, ref.mes + 1));
    OrderIsDayOrder(f, Fechamento(c, ref.mes + 1));
    assert AteOuIgual(m, Fechamento(c, ref.mes + 1));
    assert MesDoFechamento(c, m) == ref.mes + 1;
  }
}
