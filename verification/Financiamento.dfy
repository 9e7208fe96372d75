/** Loan amortisation tables (internal/core/domain/financiamento.go).

    Money is integer cents; the monthly rate is a real number, so what is rounded is exactly what
    the program rounds to the cent. */
module Financiamento {
  import opened Calendario
  import opened Centavos

  const MAX_PARCELAS := 420

  datatype Sistema = Price | SAC

  /** `taxa` is the monthly rate TaxaMensal returns, as a fraction. */
  datatype Contrato = Contrato(sistema: Sistema, valor: int, taxa: real, extra: int, prazo: int)

  datatype ParcelaProjetada = ParcelaProjetada(numero: int, data: Data, valor: int, juros: int, amortizacao: int,
                                               saldo: int)

  datatype Erro = BancoLongo | SistemaInvalido | TipoTaxaInvalido | TaxaInvalida | ValorInvalido | ExtraInvalido
                | PrazoInvalido | ParcelaAbaixoDoMinimo | SemParcela | JurosSuperamParcela

  datatype Tabela = Tabela(linhas: seq<ParcelaProjetada>) | Recusada(erro: Erro)

  function PrazoBase(c: Contrato, fallback: int): int {
    if c.prazo > 0 then c.prazo else fallback
  }

  /** math.Round: half away from zero. */
  function Arredonda(v: real): int {
    if v >= 0.0 then (v + 0.5).Floor else -(-v + 0.5).Floor
  }

  function Pot(b: real, n: nat): (p: real)
    ensures b >= 1.0 ==> p >= 1.0
    ensures b > 1.0 && n >= 1 ==> p > 1.0
  {
    if n == 0 then 1.0
    else
      var q := Pot(b, n - 1);
      GrowByFactor(b, q);
      b * q
  }

  lemma GrowByFactor(b: real, q: real)
    ensures b >= 1.0 && q >= 1.0 ==> b * q >= q
    ensures b > 1.0 && q >= 1.0 ==> b * q > q
  {
    assert b * q - q == (b - 1.0) * q;
  }

  /** The exact annuity instalment, before rounding. */
  function PrestacaoExata(valor: int, taxa: real, n: nat): real
    requires taxa > 0.0 && n >= 1
  {
    var fator := Pot(1.0 + taxa, n);
    valor as real * taxa * fator / (fator - 1.0)
  }

  function Pmt(valor: int, taxa: real, n: nat): int
    requires taxa > 0.0 && n >= 1
  {
    Arredonda(PrestacaoExata(valor, taxa, n))
  }

  // ----- the variables the loops of Cronograma share -----

  datatype Plano = Plano(sistema: Sistema, taxa: real, n: nat, base: int, resto: int, pmt: int, extra: int,
                         primeira: Data)

  function PlanoDe(c: Contrato, n: nat, primeira: Data): Plano
    requires c.taxa >= 0.0 && n >= 1
  {
    var base := Quo(c.valor, n);
    Plano(c.sistema, c.taxa, n, base, c.valor - base * n,
          if c.taxa != 0.0 && c.sistema == Price then Pmt(c.valor, c.taxa, n) else 0,
          if c.extra < 0 then 0 else c.extra, primeira)
  }

  predicate ComJuros(p: Plano, s: Sistema) {
    p.taxa != 0.0 && p.sistema == s
  }

  function JurosDoMes(p: Plano, saldo: int): int {
    if p.taxa == 0.0 then 0 else Arredonda(saldo as real * p.taxa)
  }

  /** What the branch amortises before the extra payment; only Price can go negative. */
  function Prevista(p: Plano, k: nat, saldo: int): int {
    if ComJuros(p, Price) then p.pmt - JurosDoMes(p, saldo)
    else p.base + if k == 0 then p.resto else 0
  }

  /** The last row pays the balance off, as does, with interest, a month that would overpay. */
  function DoMes(p: Plano, k: nat, saldo: int): int {
    if k == p.n - 1 || (p.taxa != 0.0 && Prevista(p, k, saldo) > saldo) then saldo
    else Prevista(p, k, saldo)
  }

  /** The closure aplicaExtra: the extra payment is added, capped at what is still owed. */
  function AplicaExtra(extra: int, saldo: int, amort: int): int {
    if amort + extra > saldo then saldo else amort + extra
  }

  /** The closure add: the row it appends; its last field is the balance it leaves. */
  function NovaLinha(primeira: Data, k: nat, juros: int, amort: int, saldo: int): ParcelaProjetada {
    ParcelaProjetada(k + 1, AddMonthsClamped(primeira, k), juros + amort, juros, amort,
            if saldo - amort < 0 then 0 else saldo - amort)
  }

  function Linha(p: Plano, k: nat, saldo: int): ParcelaProjetada {
    NovaLinha(p.primeira, k, JurosDoMes(p, saldo), AplicaExtra(p.extra, saldo, DoMes(p, k, saldo)), saldo)
  }

  function Antepor(antes: seq<ParcelaProjetada>, t: Tabela): Tabela {
    if t.Recusada? then t else Tabela(antes + t.linhas)
  }

  predicate JurosEngolemParcela(p: Plano, k: nat, saldo: int) {
    ComJuros(p, Price) && Prevista(p, k, saldo) < 0
  }

  /** The rows from month k on, with `saldo` still owed. */
  function Linhas(p: Plano, k: nat, saldo: int): Tabela
    decreases p.n - k
  {
    if k >= p.n || saldo <= 0 then Tabela([])
    else if JurosEngolemParcela(p, k, saldo) then Recusada(JurosSuperamParcela)
    else
      var linha := Linha(p, k, saldo);
      Antepor([linha], Linhas(p, k + 1, linha.saldo))
  }

  function CronogramaSpec(c: Contrato, n: int, primeira: Data): Tabela
    requires c.taxa >= 0.0
  {
    if n < 1 || n > MAX_PARCELAS then Recusada(PrazoInvalido)
    else if c.valor < n then Recusada(ParcelaAbaixoDoMinimo)
    else
      var p := PlanoDe(c, n, primeira);
      if ComJuros(p, Price) && p.pmt <= 0 then Recusada(SemParcela)
      else Linhas(p, 0, c.valor)
  }

  /** One turn of any of the three loops. */
  lemma LinhasStep(p: Plano, k: nat, saldo: int, out: seq<ParcelaProjetada>, linha: ParcelaProjetada)
    requires k < p.n && saldo > 0 && !JurosEngolemParcela(p, k, saldo) && linha == Linha(p, k, saldo)
    ensures Antepor(out, Linhas(p, k, saldo)) == Antepor(out + [linha], Linhas(p, k + 1, linha.saldo))
  {
    var t := Linhas(p, k + 1, linha.saldo);
    if t.Tabela? {
      assert out + ([linha] + t.linhas) == out + [linha] + t.linhas;
    }
  }

  /** The rows from month k on, after those already in `out`: what the loops compute. */
  function LinhasApos(p: Plano, k: nat, saldo: int, out: seq<ParcelaProjetada>): Tabela
    decreases p.n - k
  {
    if k >= p.n || saldo <= 0 then Tabela(out)
    else if JurosEngolemParcela(p, k, saldo) then Recusada(JurosSuperamParcela)
    else
      var linha := Linha(p, k, saldo);
      LinhasApos(p, k + 1, linha.saldo, out + [linha])
  }

  lemma {:induction false} RowsAfterRows(p: Plano, k: nat, saldo: int, out: seq<ParcelaProjetada>)
    ensures LinhasApos(p, k, saldo, out) == Antepor(out, Linhas(p, k, saldo))
    decreases p.n - k
  {
    if k >= p.n || saldo <= 0 {
      assert out + [] == out;
    } else if !JurosEngolemParcela(p, k, saldo) {
      var linha := Linha(p, k, saldo);
      RowsAfterRows(p, k + 1, linha.saldo, out + [linha]);
      LinhasStep(p, k, saldo, out, linha);
    }
  }

  lemma RowsFromTheStart(p: Plano, valor: int)
    ensures LinhasApos(p, 0, valor, []) == Linhas(p, 0, valor)
  {
    RowsAfterRows(p, 0, valor, []);
    var t := Linhas(p, 0, valor);
    if t.Tabela? {
      assert [] + t.linhas == t.linhas;
    }
  }

  method Cronograma(c: Contrato, totalParcelas: int, primeira: Data) returns (r: Tabela)
    requires c.taxa >= 0.0
    ensures r == CronogramaSpec(c, totalParcelas, primeira)
  {
    if totalParcelas < 1 || totalParcelas > MAX_PARCELAS {
      return Recusada(PrazoInvalido);
    }
    if c.valor < totalParcelas {
      return Recusada(ParcelaAbaixoDoMinimo);
    }
    var p := PlanoDe(c, totalParcelas, primeira);
    if c.taxa == 0.0 {
      r := TabelaSemJuros(p, c.valor);
    } else if c.sistema == SAC {
      r := TabelaSAC(p, c.valor);
    } else {
      if p.pmt <= 0 {
        return Recusada(SemParcela);
      }
      r := TabelaPrice(p, c.valor);
    }
  }

  method TabelaSemJuros(p: Plano, valor: int) returns (r: Tabela)
    requires p.taxa == 0.0
    ensures r == Linhas(p, 0, valor)
  {
    var saldo: int, out: seq<ParcelaProjetada> := valor, [];
    RowsFromTheStart(p, valor);
    var k := 0;
    while k < p.n && saldo > 0
      invariant 0 <= k
      invariant LinhasApos(p, k, saldo, out) == Linhas(p, 0, valor)
    {
      var linha := MesSemJuros(p, k, saldo);
      saldo, out, k := linha.saldo, out + [linha], k + 1;
    }
    r := Tabela(out);
  }

  method MesSemJuros(p: Plano, k: nat, saldo: int) returns (linha: ParcelaProjetada)
    requires p.taxa == 0.0
    ensures linha == Linha(p, k, saldo)
  {
    var amort := p.base;
    if k == 0 {
      amort := amort + p.resto;
    }
    if k == p.n - 1 {
      amort := saldo;
    }
    linha := NovaLinha(p.primeira, k, 0, AplicaExtra(p.extra, saldo, amort), saldo);
  }

  method TabelaSAC(p: Plano, valor: int) returns (r: Tabela)
    requires ComJuros(p, SAC)
    ensures r == Linhas(p, 0, valor)
  {
    var saldo: int, out: seq<ParcelaProjetada> := valor, [];
    RowsFromTheStart(p, valor);
    var k := 0;
    while k < p.n && saldo > 0
      invariant 0 <= k
      invariant LinhasApos(p, k, saldo, out) == Linhas(p, 0, valor)
    {
      assert !JurosEngolemParcela(p, k, saldo);
      var linha := MesSAC(p, k, saldo);
      saldo, out, k := linha.saldo, out + [linha], k + 1;
    }
    r := Tabela(out);
  }

  method MesSAC(p: Plano, k: nat, saldo: int) returns (linha: ParcelaProjetada)
    requires ComJuros(p, SAC)
    ensures linha == Linha(p, k, saldo)
  {
    var juros := JurosDoMes(p, saldo);
    var amort := p.base;
    if k == 0 {
      amort := amort + p.resto;
    }
    if k == p.n - 1 || amort > saldo {
      amort := saldo;
    }
    linha := NovaLinha(p.primeira, k, juros, AplicaExtra(p.extra, saldo, amort), saldo);
  }

  method TabelaPrice(p: Plano, valor: int) returns (r: Tabela)
    requires ComJuros(p, Price)
    ensures r == Linhas(p, 0, valor)
  {
    var saldo: int, out: seq<ParcelaProjetada> := valor, [];
    RowsFromTheStart(p, valor);
    var k := 0;
    while k < p.n && saldo > 0
      invariant 0 <= k
      invariant LinhasApos(p, k, saldo, out) == Linhas(p, 0, valor)
    {
      if p.pmt - JurosDoMes(p, saldo) < 0 {
        return Recusada(JurosSuperamParcela);
      }
      var linha := MesPrice(p, k, saldo);
      saldo, out, k := linha.saldo, out + [linha], k + 1;
    }
    r := Tabela(out);
  }

  method MesPrice(p: Plano, k: nat, saldo: int) returns (linha: ParcelaProjetada)
    requires ComJuros(p, Price)
    ensures linha == Linha(p, k, saldo)
  {
    var juros := JurosDoMes(p, saldo);
    var amort := p.pmt - juros;
    if k == p.n - 1 || amort > saldo {
      amort := saldo;
    }
    linha := NovaLinha(p.primeira, k, juros, AplicaExtra(p.extra, saldo, amort), saldo);
  }

  // ----- totals -----

  function SomaValor(s: seq<ParcelaProjetada>): int {
    if s == [] then 0 else s[0].valor + SomaValor(s[1..])
  }

  function SomaJuros(s: seq<ParcelaProjetada>): int {
    if s == [] then 0 else s[0].juros + SomaJuros(s[1..])
  }

  function SomaAmortizacao(s: seq<ParcelaProjetada>): int {
    if s == [] then 0 else s[0].amortizacao + SomaAmortizacao(s[1..])
  }

  method TotaisCronograma(parcelas: seq<ParcelaProjetada>) returns (total: int, juros: int)
    ensures total == SomaValor(parcelas) && juros == SomaJuros(parcelas)
  {
    total, juros := 0, 0;
    var i := 0;
    while i < |parcelas|
      invariant 0 <= i <= |parcelas|
      invariant total + SomaValor(parcelas[i..]) == SomaValor(parcelas)
      invariant juros + SomaJuros(parcelas[i..]) == SomaJuros(parcelas)
    {
      assert parcelas[i..][1..] == parcelas[i + 1..];
      total := total + parcelas[i].valor;
      juros := juros + parcelas[i].juros;
      i := i + 1;
    }
  }
}
