/** Calendar dates as Go's time package computes them (internal/core/domain/periodo.go).

    A date is a month index (12 * year + month - 1, so any year) and a day of the month. The
    clock time and the time zone play no part in the domain's date rules. */
module Calendario {
  import opened Comum


  datatype Data = Data(mes: int, dia: int)

  predicate Bissexto(ano: int) {
    ano % 4 == 0 && (ano % 100 != 0 || ano % 400 == 0)
  }

  function DiasNoMes(mes: int): (d: int)
    ensures 28 <= d <= 31
  {
    var m := mes % 12;
    if m == 1 then (if Bissexto(mes / 12) then 29 else 28)
    else if m == 3 || m == 5 || m == 8 || m == 10 then 30
    else 31
  }

  predicate Valida(t: Data) {
    1 <= t.dia <= DiasNoMes(t.mes)
  }

  predicate Antes(a: Data, b: Data) {
    a.mes < b.mes || (a.mes == b.mes && a.dia < b.dia)
  }

  predicate AteOuIgual(a: Data, b: Data) {
    a == b || Antes(a, b)
  }

  /** time.Date(year, month, day): a day outside its month carries into the neighbouring months. */
  function TimeDate(mes: int, dia: int): (t: Data)
    ensures Valida(t)
    decreases dia < 1, if dia < 1 then -dia else dia
  {
    if dia < 1 then TimeDate(mes - 1, dia + DiasNoMes(mes - 1))
    else if dia > DiasNoMes(mes) then TimeDate(mes + 1, dia - DiasNoMes(mes))
    else Data(mes, dia)
  }

  /** t.AddDate(0, meses, dias) */
  function AddDate(t: Data, meses: int, dias: int): Data {
    TimeDate(t.mes + meses, t.dia + dias)
  }

  function AddMonthsClamped(t: Data, n: int): Data {
    var first := AddDate(TimeDate(t.mes, 1), n, 0);
    var lastDay := AddDate(first, 1, -1).dia;
    TimeDate(first.mes, if t.dia > lastDay then lastDay else t.dia)
  }

  // ----- the day count behind the calendar -----

  function DiasAteOMes(m: int): int
    requires 0 <= m < 12
  {
    [0, 31, 59, 90, 120, 151, 181, 212, 243, 273, 304, 334][m]
  }

  /** Days before the first of a month, in closed form. */
  function DiasAntes(mes: int): int {
    var ano, m := mes / 12, mes % 12;
    365 * ano + (ano - 1) / 4 - (ano - 1) / 100 + (ano - 1) / 400
    + DiasAteOMes(m) + (if m >= 2 && Bissexto(ano) then 1 else 0)
  }

  function NumeroDoDia(t: Data): int {
    DiasAntes(t.mes) + t.dia
  }

  lemma LeapYearsCount(ano: int)
    ensures ano / 4 - ano / 100 + ano / 400
         == (ano - 1) / 4 - (ano - 1) / 100 + (ano - 1) / 400 + (if Bissexto(ano) then 1 else 0)
  {
    FourthYears(ano);
    Centuries(ano);
    FourthCenturies(ano);
    HundredsAreFours(ano);
    FourHundredsAreHundreds(ano);
  }

  lemma HundredsAreFours(ano: int)
    ensures ano % 100 == 0 ==> ano % 4 == 0
  {
    var r := ano / 100;
    assert ano % 100 == 0 ==> ano == 4 * (25 * r);
  }

  lemma FourHundredsAreHundreds(ano: int)
    ensures ano % 400 == 0 ==> ano % 100 == 0
  {
    var q := ano / 400;
    assert ano % 400 == 0 ==> ano == 100 * (4 * q);
  }

  lemma FourthYears(ano: int)
    ensures ano / 4 == (ano - 1) / 4 + (if ano % 4 == 0 then 1 else 0)
  {}

  lemma Centuries(ano: int)
    ensures ano / 100 == (ano - 1) / 100 + (if ano % 100 == 0 then 1 else 0)
  {}

  lemma FourthCenturies(ano: int)
    ensures ano / 400 == (ano - 1) / 400 + (if ano % 400 == 0 then 1 else 0)
  {}

  lemma MonthLength(mes: int)
    ensures DiasAntes(mes + 1) == DiasAntes(mes) + DiasNoMes(mes)
  {
    if mes % 12 == 11 {
      DecemberLength(mes);
    } else {
      LengthBeforeDecember(mes);
    }
  }

  lemma DecemberLength(mes: int)
    requires mes % 12 == 11
    ensures DiasAntes(mes + 1) == DiasAntes(mes) + DiasNoMes(mes)
  {
    assert (mes + 1) / 12 == mes / 12 + 1 && (mes + 1) % 12 == 0;
    LeapYearsCount(mes / 12);
  }

  lemma LengthBeforeDecember(mes: int)
    requires mes % 12 < 11
    ensures DiasAntes(mes + 1) == DiasAntes(mes) + DiasNoMes(mes)
  {
    assert (mes + 1) / 12 == mes / 12 && (mes + 1) % 12 == mes % 12 + 1;
  }

  lemma {:induction false} MonthsAreOrdered(a: int, b: int)
    requires a < b
    ensures DiasAntes(a) + DiasNoMes(a) <= DiasAntes(b)
    decreases b - a
  {
    MonthLength(a);
    if a + 1 < b {
      MonthsAreOrdered(a + 1, b);
    }
  }

  /** The (month, day) order used everywhere is the order of the days themselves. */
  lemma OrderIsDayOrder(a: Data, b: Data)
    requires Valida(a) && Valida(b)
    ensures Antes(a, b) <==> NumeroDoDia(a) < NumeroDoDia(b)
    ensures a == b <==> NumeroDoDia(a) == NumeroDoDia(b)
  {
    if a.mes < b.mes {
      MonthsAreOrdered(a.mes, b.mes);
    } else if b.mes < a.mes {
      MonthsAreOrdered(b.mes, a.mes);
    }
  }

  /** Normalisation neither loses nor gains a day, however far out of range the day is. */
  lemma {:induction false} TimeDateCountsDays(mes: int, dia: int)
    ensures NumeroDoDia(TimeDate(mes, dia)) == DiasAntes(mes) + dia
    decreases dia < 1, if dia < 1 then -dia else dia
  {
    if dia < 1 {
      MonthLength(mes - 1);
      TimeDateCountsDays(mes - 1, dia + DiasNoMes(mes - 1));
    } else if dia > DiasNoMes(mes) {
      MonthLength(mes);
      TimeDateCountsDays(mes + 1, dia - DiasNoMes(mes));
    }
  }

  /** AddMonthsClamped keeps the day when the target month has it and else takes its last day. */
  lemma AddMonthsClampedClamps(t: Data, n: int)
    requires Valida(t)
    ensures AddMonthsClamped(t, n) == Data(t.mes + n, Min(t.dia, DiasNoMes(t.mes + n)))
  {
    LastDayOfMonth(t.mes + n);
  }

  lemma LaterMonthsAreLater(t: Data, a: int, b: int)
    requires Valida(t) && a < b
    ensures Antes(AddMonthsClamped(t, a), AddMonthsClamped(t, b))
  {
    AddMonthsClampedClamps(t, a);
    AddMonthsClampedClamps(t, b);
  }

  /** AddDate(0, 1, -1) from the first of a month is that month's last day. */
  lemma LastDayOfMonth(mes: int)
    ensures AddDate(Data(mes, 1), 1, -1) == Data(mes, DiasNoMes(mes))
  {
    assert TimeDate(mes + 1, 0) == TimeDate(mes, DiasNoMes(mes));
  }

  /** AddDate(0, 0, 1) is the next day: nothing lies between a date and it. */
  lemma NextDay(t: Data)
    requires Valida(t)
    ensures NumeroDoDia(AddDate(t, 0, 1)) == NumeroDoDia(t) + 1
    ensures forall d: Data | Valida(d) ::
              AteOuIgual(AddDate(t, 0, 1), d) <==> Antes(t, d)
  {
    TimeDateCountsDays(t.mes, t.dia + 1);
    var s := AddDate(t, 0, 1);
    forall d: Data | Valida(d)
      ensures AteOuIgual(s, d) <==> Antes(t, d)
    {
      OrderIsDayOrder(s, d);
      OrderIsDayOrder(t, d);
    }
  }
}
