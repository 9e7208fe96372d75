/** Which texts ParseMoney reads, and as what (internal/core/domain/money.go). */
module MoneyTextos {
  import opened Comum
  import opened Centavos
  import opened Texto
  import opened Money

  // ----- the amounts a text can be written as -----

  /** What the digits after the decimal separator are worth in cents: one digit counts tens. */
  function CentavosDe(f: string): nat
    requires Digitos(f)
  {
    if f == "" then 0 else if |f| == 1 then 10 * ValorDe(f) else ValorDe(f)
  }

  /** s is the digits d and, after the decimal separator sep, the digits f. Alone, d may be in groups of three
      by either separator. With cents, one digit or two, it may be in groups by the other one, and only then
      can the cents be left out after sep. */
  predicate Escreve(s: string, d: string, sep: char, f: string) {
    && Digitos(d) && Digitos(f) && Separador(sep)
    && ((f == "" && (s == d || (|d| > 3 && s == Agrupar(d, sep))))
        || (1 <= |f| <= 2 && s == d + [sep] + f)
        || (|f| <= 2 && |d| > 3 && s == Agrupar(d, Outro(sep)) + [sep] + f))
  }

  lemma PaddedCents(f: string)
    requires Digitos(f) && |f| <= 2
    ensures ValorDe(Completar(f)) == CentavosDe(f)
  {
    var g := Completar(f);
    assert g[..|g| - 1] == if |f| == 2 then f[..1] else if |f| == 1 then f else "0";
    if f == "" {
      assert "0"[..0] == "";
    }
  }

  lemma LettersOfDigits(d: string)
    requires Digitos(d)
    ensures Aceitos(d) && IndiceDecimal(d) == -1
  {
    DigitsHaveNoSeparators(d);
  }

  lemma PlainDigitsAreRead(d: string, negativo: bool)
    requires Digitos(d)
    ensures Aceitos(d) && LerCorpo(d, negativo) == Partes(negativo, ValorDe(d), 0)
  {
    LettersOfDigits(d);
    DigitsHaveNoSeparators(d);
    ReadParts(d, "", negativo);
    PaddedCents("");
  }

  lemma GroupingShows(d: string, sep: char)
    requires Digitos(d) && |d| > 3 && Separador(sep)
    ensures var s := Agrupar(d, sep);
            sep in s && ContainsSep(s) && |s| >= 4 && LastIndex(s, sep) == |s| - 4
  {
    var x, y := d[..|d| - 3], d[|d| - 3..];
    DigitsHaveNoSeparators(y);
    var s := Agrupar(x, sep) + [sep] + y;
    assert s[|s| - 4] == sep;
  }

  lemma GroupedDigitsAreRead(d: string, sep: char, negativo: bool)
    requires Digitos(d) && |d| > 3 && Separador(sep)
    ensures Aceitos(Agrupar(d, sep)) && LerCorpo(Agrupar(d, sep), negativo) == Partes(negativo, ValorDe(d), 0)
  {
    var s := Agrupar(d, sep);
    GroupingShows(d, sep);
    GroupedIsValid(d, sep);
    OtherIsAbsent(s, sep);
    assert IndiceDecimal(s) == -1;
    ReadParts(s, "", negativo);
    PaddedCents("");
  }

  lemma OtherIsAbsent(s: string, sep: char)
    requires Separador(sep) && Outro(sep) !in s
    ensures LastIndex(s, Outro(sep)) == -1
  {
    forall i | 0 <= i < |s|
      ensures s[i] != Outro(sep)
    {
      assert s[i] in s;
    }
  }

  lemma PlainWithCentsIsRead(d: string, sep: char, f: string, negativo: bool)
    requires Digitos(d) && Digitos(f) && 1 <= |f| <= 2 && Separador(sep)
    ensures Aceitos(d + [sep] + f)
    ensures LerCorpo(d + [sep] + f, negativo) == Partes(negativo, ValorDe(d), CentavosDe(f))
  {
    DigitsHaveNoSeparators(d);
    LettersOfDigits(d);
    ReadDecimal(d, sep, f, negativo);
    PaddedCents(f);
  }

  lemma GroupedWithCentsIsRead(d: string, sep: char, f: string, negativo: bool)
    requires Digitos(d) && Digitos(f) && |d| > 3 && |f| <= 2 && Separador(sep)
    ensures Aceitos(Agrupar(d, Outro(sep)) + [sep] + f)
    ensures LerCorpo(Agrupar(d, Outro(sep)) + [sep] + f, negativo) == Partes(negativo, ValorDe(d), CentavosDe(f))
  {
    GroupedIsValid(d, Outro(sep));
    GroupingShows(d, Outro(sep));
    ReadDecimal(Agrupar(d, Outro(sep)), sep, f, negativo);
    PaddedCents(f);
  }

  /** What is written as digits and cents is read as them. */
  lemma WrittenIsRead(s: string, d: string, sep: char, f: string, negativo: bool)
    requires Escreve(s, d, sep, f)
    ensures Aceitos(s) && LerCorpo(s, negativo) == Partes(negativo, ValorDe(d), CentavosDe(f))
  {
    if f == "" && s == d {
      PlainDigitsAreRead(d, negativo);
    } else if f == "" && s == Agrupar(d, sep) {
      GroupedDigitsAreRead(d, sep, negativo);
    } else if 1 <= |f| && s == d + [sep] + f {
      PlainWithCentsIsRead(d, sep, f, negativo);
    } else {
      GroupedWithCentsIsRead(d, sep, f, negativo);
    }
  }

  // ----- nothing else is read -----

  lemma NoSeparatorsMeansDigits(s: string)
    requires Aceitos(s) && !ContainsSep(s)
    ensures Digitos(s)
  {
    FractionDigits(s);
  }

  /** A valid grouping that shows a separator is a grouping of more than three digits by it. */
  lemma GroupedBy(s: string, sep: char) returns (d: string)
    requires Aceitos(s) && Separador(sep) && Outro(sep) !in s && sep in s && ValidThousandsSpec(s)
    ensures Digitos(d) && |d| > 3 && s == Agrupar(d, sep)
  {
    StrippedDigits(s);
    d := SemSeparadores(s);
    ValidIsGrouped(s, sep);
    DigitsHaveNoSeparators(d);
  }

  lemma OneSeparator(s: string) returns (sep: char)
    requires ContainsSep(s) && ValidThousandsSpec(s)
    ensures Separador(sep) && sep in s && Outro(sep) !in s
  {
    var i :| 0 <= i < |s| && Separador(s[i]);
    sep := s[i];
    assert s[i] in s;
  }

  lemma WholeIsWritten(s: string, negativo: bool) returns (d: string, sep: char)
    requires Aceitos(s) && IndiceDecimal(s) < 0 && LerCorpo(s, negativo).Partes?
    ensures Escreve(s, d, sep, "")
  {
    d, sep := s, '.';
    if ContainsSep(s) {
      sep := OneSeparator(s);
      d := GroupedBy(s, sep);
    } else {
      NoSeparatorsMeansDigits(s);
    }
  }

  /** Around the decimal separator: it occurs nowhere else, and a text without the other one has one or two
      digits after it. */
  lemma AroundDecimal(s: string, a: string, sep: char, f: string)
    requires Aceitos(s) && s == a + [sep] + f && IndiceDecimal(s) == |a| && !ContainsSep(f)
    requires ContainsSep(a) ==> ValidThousandsSpec(a)
    ensures Separador(sep) && sep !in a
    ensures Outro(sep) !in a ==> 1 <= |f| <= 2
  {
    assert s[|a|] == sep;
    assert Separador(sep);
    AbsentFrom(f, sep);
    AbsentFrom(f, Outro(sep));
    if Outro(sep) !in a {
      assert Outro(sep) !in s;
      OtherIsAbsent(s, sep);
      OnlyOnce(a, sep, f);
    } else {
      var i :| 0 <= i < |a| && a[i] == Outro(sep);
      assert ContainsSep(a);
    }
  }

  lemma AbsentFrom(f: string, c: char)
    requires !ContainsSep(f) && Separador(c)
    ensures c !in f
  {}

  lemma OnlyOnce(a: string, sep: char, f: string)
    requires Count(a + [sep] + f, sep) == 1
    ensures sep !in a
  {
    CountOverConcat(a + [sep], f, sep);
    CountOverConcat(a, [sep], sep);
    assert [sep][..0] == "" && Count([sep], sep) == 1;
    CountIfPresent(a, sep);
  }

  lemma {:induction false} CountIfPresent(a: string, c: char)
    ensures Count(a, c) == 0 ==> c !in a
  {
    if a != "" {
      CountIfPresent(a[..|a| - 1], c);
      assert a == a[..|a| - 1] + [a[|a| - 1]];
    }
  }

  lemma DecimalIsWritten(s: string, k: nat, negativo: bool) returns (d: string, sep: char, f: string)
    requires Aceitos(s) && IndiceDecimal(s) == k && LerCorpo(s, negativo).Partes?
    ensures Escreve(s, d, sep, f)
  {
    var a: string;
    a, sep, f := CutAt(s, k);
    SplitAtDecimal(s, a, f, negativo);
    d := PartsAreWritten(s, a, sep, f, negativo);
  }

  lemma CutAt(s: string, k: nat) returns (a: string, c: char, f: string)
    requires Aceitos(s) && k < |s|
    ensures s == a + [c] + f && |a| == k && s[..k] == a && s[k + 1..] == f
    ensures Aceitos(a) && Aceitos(f)
  {
    a, c, f := s[..k], s[k], s[k + 1..];
  }

  lemma PartsAreWritten(s: string, a: string, sep: char, f: string, negativo: bool) returns (d: string)
    requires Aceitos(s) && s == a + [sep] + f && IndiceDecimal(s) == |a|
    requires Aceitos(a) && Aceitos(f) && LerPartes(a, f, negativo).Partes?
    ensures Escreve(s, d, sep, f)
  {
    AroundDecimal(s, a, sep, f);
    NoSeparatorsMeansDigits(f);
    d := WholeOfParts(a, sep);
  }

  lemma WholeOfParts(a: string, sep: char) returns (d: string)
    requires Aceitos(a) && Separador(sep) && sep !in a && (ContainsSep(a) ==> ValidThousandsSpec(a))
    ensures Digitos(d)
    ensures (d == a && Outro(sep) !in a) || (|d| > 3 && a == Agrupar(d, Outro(sep)))
  {
    d := a;
    if ContainsSep(a) {
      OtherSeparator(a, sep);
      d := GroupedBy(a, Outro(sep));
    } else {
      NoSeparatorsMeansDigits(a);
      DigitsHaveNoSeparators(a);
    }
  }

  lemma OtherSeparator(a: string, sep: char)
    requires ContainsSep(a) && Separador(sep) && sep !in a
    ensures Outro(sep) in a && Outro(Outro(sep)) == sep
  {
    var i :| 0 <= i < |a| && Separador(a[i]);
    assert a[i] in a;
  }

  /** Without its sign a text is read exactly when it is written as digits and cents, and as those: no text
      has two readings. */
  lemma ReadIffWritten(s: string, negativo: bool)
    requires Aceitos(s)
    ensures LerCorpo(s, negativo).Partes? <==> exists d, sep, f :: Escreve(s, d, sep, f)
    ensures forall d, sep, f :: Escreve(s, d, sep, f) ==>
              LerCorpo(s, negativo) == Partes(negativo, ValorDe(d), CentavosDe(f))
  {
    if LerCorpo(s, negativo).Partes? {
      if IndiceDecimal(s) < 0 {
        var d, sep := WholeIsWritten(s, negativo);
      } else {
        var d, sep, f := DecimalIsWritten(s, IndiceDecimal(s), negativo);
      }
    }
    forall d, sep, f | Escreve(s, d, sep, f)
      ensures LerCorpo(s, negativo) == Partes(negativo, ValorDe(d), CentavosDe(f))
    {
      WrittenIsRead(s, d, sep, f, negativo);
    }
  }

  // ----- spaces, currency and sign -----

  predicate Espacos(s: string) {
    forall i :: 0 <= i < |s| ==> Espaco(s[i])
  }

  lemma {:induction false} TrimmedLeft(a: string, t: string)
    requires Espacos(a)
    ensures TrimSpace(a + t) == TrimSpace(t)
  {
    if a == "" {
      assert a + t == t;
    } else {
      TrimmedLeft(a[1..], t);
      assert (a + t)[1..] == a[1..] + t;
    }
  }

  lemma {:induction false} TrimmedRight(t: string, b: string)
    requires Espacos(b) && t != "" && !Espaco(t[0]) && !Espaco(t[|t| - 1])
    ensures TrimSpace(t + b) == t
    decreases |b|
  {
    if b == "" {
      assert t + b == t;
    } else {
      TrimmedRight(t, b[..|b| - 1]);
      assert (t + b)[..|t + b| - 1] == t + b[..|b| - 1];
    }
  }

  /** What may stand inside the number: digits, separators, the sign and the two spaces taken out. */
  predicate Numeral(t: string) {
    forall i :: 0 <= i < |t| ==> Aceito(t[i]) || t[i] == '-' || t[i] == ' ' || t[i] == 0xA0 as char
  }

  function SemEspacos(t: string): string {
    Sem(Sem(t, ' '), 0xA0 as char)
  }

  lemma CurrencyTaken(moeda: string, t: string)
    requires moeda in {"", "R$", "r$"} && Numeral(t)
    ensures TrimPrefixRS(ToUpper(moeda + t)) == t
  {
    var u := ToUpper(moeda + t);
    assert u == ToUpper(moeda) + t;
    if moeda == "" {
      assert u == t;
      assert t == "" || u[0] != 'R';
    } else {
      assert ToUpper(moeda) == "R$";
    }
  }

  /** Spaces around the text, "R$" in front of the number and spaces inside it change nothing. */
  lemma SpacesAndCurrencyAreDropped(a: string, moeda: string, t: string, b: string)
    requires Espacos(a) && Espacos(b) && moeda in {"", "R$", "r$"} && Numeral(t) && t != ""
    requires !Espaco(t[|t| - 1]) && (moeda == "" ==> !Espaco(t[0]))
    ensures Limpar(a + moeda + t + b) == SemEspacos(t)
    ensures Ler(a + moeda + t + b) == Ler(SemEspacos(t))
  {
    var u := moeda + t;
    assert a + moeda + t + b == a + (u + b);
    TrimmedLeft(a, u + b);
    TrimmedRight(u, b);
    CurrencyTaken(moeda, t);
    CleanAgain(t);
  }

  lemma CleanAgain(t: string)
    requires Numeral(t)
    ensures Limpar(SemEspacos(t)) == SemEspacos(t)
  {
    var s := SemEspacos(t);
    DroppedChar(t, ' ');
    DroppedChar(Sem(t, ' '), 0xA0 as char);
    forall i | 0 <= i < |s|
      ensures Aceito(s[i]) || s[i] == '-'
    {
      assert s[i] in t;
    }
    if s == "" {
      assert ToUpper(s) == "";
    } else {
      CleanIsIdentity(s);
    }
  }

  /** A cleaned text with an optional sign in front of digits and cents is read as that amount. */
  lemma TextIsRead(raw: string, negativo: bool, s: string, d: string, sep: char, f: string)
    requires Limpar(raw) == (if negativo then "-" else "") + s && (negativo || s != "")
    requires Escreve(s, d, sep, f)
    ensures Ler(raw) == Partes(negativo, ValorDe(d), CentavosDe(f))
  {
    WrittenIsRead(s, d, sep, f, negativo);
    if negativo {
      ReadSigned(raw, s);
    } else {
      assert "" + s == s;
      ReadUnsigned(raw, s);
    }
  }

  /** And nothing else is read. */
  lemma ReadTextIsWritten(raw: string) returns (s: string, d: string, sep: char, f: string)
    requires Ler(raw).Partes?
    ensures Limpar(raw) == (if Ler(raw).negativo then "-" else "") + s
    ensures Escreve(s, d, sep, f) && Ler(raw) == Partes(Ler(raw).negativo, ValorDe(d), CentavosDe(f))
  {
    var t := Limpar(raw);
    var negativo := t[0] == '-';
    s := if negativo then t[1..] else t;
    assert t == (if negativo then "-" else "") + s;
    assert Ler(raw) == LerCorpo(s, negativo);
    ReadIffWritten(s, negativo);
    d, sep, f :| Escreve(s, d, sep, f);
  }

  // ----- amounts in digits -----

  lemma OneDigit(x: int)
    requires 0 <= x < 10
    ensures var f := [Algarismo(x)]; Digitos(f) && ValorDe(f) == x && CentavosDe(f) == 10 * x
  {
    var f := [Algarismo(x)];
    assert f[..0] == "";
  }

  /** "150,5" and "150.5" are 150 reais and 50 cents. */
  lemma OneDigitOfCents(v: nat, sep: char, x: int)
    requires Separador(sep) && 0 <= x < 10
    ensures Ler(FormatNat(v) + [sep] + [Algarismo(x)]) == Partes(false, v, 10 * x)
  {
    OneDigit(x);
    NatReadsBack(v);
    WrittenAmount(FormatNat(v) + [sep] + [Algarismo(x)], FormatNat(v), sep, [Algarismo(x)]);
  }

  /** "150,25" and "150.25" are 150 reais and 25 cents. */
  lemma TwoDigitsOfCents(v: nat, sep: char, x: nat)
    requires Separador(sep) && x < 100
    ensures Ler(FormatNat(v) + [sep] + FormatDoisDigitos(x)) == Partes(false, v, x)
  {
    CentsReadBack(x);
    NatReadsBack(v);
    WrittenAmount(FormatNat(v) + [sep] + FormatDoisDigitos(x), FormatNat(v), sep, FormatDoisDigitos(x));
  }

  /** "1500" and, grouped by either separator, "1.500" and "1,500" are 1500 reais. */
  lemma WholeReais(v: nat, sep: char)
    requires Separador(sep)
    ensures Ler(FormatNat(v)) == Partes(false, v, 0)
    ensures Ler(Agrupar(FormatNat(v), sep)) == Partes(false, v, 0)
  {
    NatReadsBack(v);
    WrittenAmount(FormatNat(v), FormatNat(v), sep, "");
    if |FormatNat(v)| > 3 {
      WrittenAmount(Agrupar(FormatNat(v), sep), FormatNat(v), sep, "");
    }
  }

  lemma WrittenAmount(raw: string, d: string, sep: char, f: string)
    requires Escreve(raw, d, sep, f) && d != ""
    ensures Ler(raw) == Partes(false, ValorDe(d), CentavosDe(f))
  {
    WrittenIsRead(raw, d, sep, f, false);
    assert raw != "" by {
      if raw == "" {
        assert d == "" || |d| > 3;
        GroupingShows(d, sep);
      }
    }
    CleanIsIdentity(raw);
    assert "" + raw == raw;
    TextIsRead(raw, false, raw, d, sep, f);
  }

  // ----- the texts the printers give -----

  /** String prints the sign, the reais in digits, a point and two digits of cents. */
  lemma StringShape(m: int) returns (f: string)
    requires MIN_INT64 < m <= MAX_INT64
    ensures var v := if m < 0 then -m else m;
            && String(m) == (if m < 0 then "-" else "") + FormatNat(v / 100) + "." + f
            && |f| == 2 && Digitos(f) && ValorDe(f) == v % 100
  {
    var v := if m < 0 then -m else m;
    f := FormatDoisDigitos(v % 100);
    CentsReadBack(v % 100);
    QuotientOfPrinted(v);
  }

  /** BRL prints the sign, "R$ ", the reais in groups of three by points alone, a comma and two digits of
      cents. */
  lemma BRLShape(m: int) returns (g: string, f: string)
    requires MIN_INT64 < m <= MAX_INT64
    ensures var v := if m < 0 then -m else m;
            && BRLSpec(m) == (if m < 0 then "-" else "") + "R$ " + g + "," + f
            && ',' !in g && ValidThousandsSpec(g) && SemSeparadores(g) == FormatNat(v / 100)
            && |f| == 2 && Digitos(f) && ValorDe(f) == v % 100
  {
    var v := if m < 0 then -m else m;
    g, f := Agrupar(FormatNat(v / 100), '.'), FormatDoisDigitos(v % 100);
    GroupedIsValid(FormatNat(v / 100), '.');
    CentsReadBack(v % 100);
    QuotientOfPrinted(v);
  }
}
