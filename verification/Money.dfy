/** Money in cents: printing and parsing (internal/core/domain/money.go). */
module Money {

  import opened Comum
  import opened Centavos
  import opened Texto

  // ----- printing -----

  function FormatInt(v: int): string {
    if v < 0 then "-" + FormatNat(-v) else FormatNat(v)
  }

  /** Sprintf("%02d"). */
  function FormatDoisDigitos(v: int): string {
    var s := FormatInt(v);
    if |s| < 2 then "0" + s else s
  }

  function Sinal(m: int): string {
    if m < 0 then "-" else ""
  }

  function Absoluto(m: int): int {
    if m < 0 then Wrap(-m) else m
  }

  function String(m: int): string {
    var v := Absoluto(m);
    Sinal(m) + FormatInt(Quo(v, 100)) + "." + FormatDoisDigitos(Rem(v, 100))
  }

  /** Digits split in threes from the right. */
  function Agrupar(d: string, sep: char): string {
    if |d| <= 3 then d else Agrupar(d[..|d| - 3], sep) + [sep] + d[|d| - 3..]
  }

  function BRLSpec(m: int): string {
    var v := Absoluto(m);
    Sinal(m) + "R$ " + Agrupar(FormatInt(Quo(v, 100)), '.') + "," + FormatDoisDigitos(Rem(v, 100))
  }

  /** What the printing loop has built when the last group still lacks `faltam` digits. */
  function AgrupadoAte(p: string, faltam: int): string
    requires 0 <= faltam < 3
  {
    if |p| + faltam <= 3 then p
    else Agrupar(p[..|p| - (3 - faltam)], '.') + "." + p[|p| - (3 - faltam)..]
  }

  method BRL(m: int) returns (r: string)
    ensures r == BRLSpec(m)
  {
    var sign := "";
    var v := m;
    if v < 0 {
      sign := "-";
      v := Wrap(-v);
    }
    var b := ComMilhares(FormatInt(Quo(v, 100)));
    r := sign + "R$ " + b + "," + FormatDoisDigitos(Rem(v, 100));
  }

  /** The loop of BRL: a dot before every third digit counted from the right. */
  method ComMilhares(inteiro: string) returns (b: string)
    ensures b == Agrupar(inteiro, '.')
  {
    b := "";
    var i := 0;
    GroupingEnds(inteiro);
    while i < |inteiro|
      invariant 0 <= i <= |inteiro|
      invariant b == Feito(inteiro, i)
    {
      GroupingStep(inteiro, i);
      if i > 0 && (|inteiro| - i) % 3 == 0 {
        b := b + ".";
      }
      b := b + [inteiro[i]];
      i := i + 1;
    }
  }

  /** What the loop has built after i digits. */
  function Feito(d: string, i: nat): string
    requires i <= |d|
  {
    AgrupadoAte(d[..i], (|d| - i) % 3)
  }

  lemma GroupingEnds(d: string)
    ensures Feito(d, 0) == "" && Feito(d, |d|) == Agrupar(d, '.')
  {
    assert d[..|d|] == d && d[..0] == "";
  }

  lemma GroupingStep(d: string, i: nat)
    requires i < |d|
    ensures Feito(d, i + 1) == Feito(d, i) + (if i > 0 && (|d| - i) % 3 == 0 then "." else "") + [d[i]]
  {
    var p, q, r := d[..i], d[..i + 1], (|d| - i) % 3;
    assert q == p + [d[i]];
    if r == 0 {
      assert (|d| - (i + 1)) % 3 == 2;
      assert AgrupadoAte(p, 0) == Agrupar(p, '.');
      if i > 0 {
        assert q[..|q| - 1] == p;
      }
    } else {
      assert (|d| - (i + 1)) % 3 == r - 1;
      if |p| + r > 3 {
        assert q[..|q| - (4 - r)] == p[..|p| - (3 - r)];
        assert q[|q| - (4 - r)..] == p[|p| - (3 - r)..] + [d[i]];
      }
    }
  }

  // ----- parsing -----

  datatype ErroValor = Vazio | Invalido | AcimaDoLimite
  datatype Partes = Partes(negativo: bool, reais: int, cents: int) | SemPartes(motivo: ErroValor)

  predicate Separador(c: char) {
    c == '.' || c == ','
  }

  predicate ContainsSep(s: string) {
    exists i :: 0 <= i < |s| && Separador(s[i])
  }

  function TrimSpace(s: string): string {
    if s == "" then s
    else if Espaco(s[0]) then TrimSpace(s[1..])
    else if Espaco(s[|s| - 1]) then TrimSpace(s[..|s| - 1])
    else s
  }

  /** ToUpper on ASCII letters; every other letter makes the text invalid either way. */
  function ToUpper(s: string): string {
    seq(|s|, i requires 0 <= i < |s| => if 'a' <= s[i] <= 'z' then s[i] - 32 as char else s[i])
  }

  function TrimPrefixRS(s: string): string {
    if "R$" <= s then s[2..] else s
  }

  /** ReplaceAll(s, c, "") */
  function Sem(s: string, c: char): string {
    if s == "" then "" else Sem(s[..|s| - 1], c) + (if s[|s| - 1] == c then "" else [s[|s| - 1]])
  }

  function Limpar(raw: string): string {
    Sem(Sem(TrimPrefixRS(ToUpper(TrimSpace(raw))), ' '), 0xA0 as char)
  }

  /** strings.LastIndex: -1 when absent. */
  function LastIndex(s: string, c: char): (k: int)
    ensures -1 <= k < |s|
    ensures k >= 0 ==> s[k] == c
    ensures forall i :: k < i < |s| ==> s[i] != c
  {
    if s == "" then -1 else if s[|s| - 1] == c then |s| - 1 else LastIndex(s[..|s| - 1], c)
  }

  function Count(s: string, c: char): nat {
    if s == "" then 0 else Count(s[..|s| - 1], c) + (if s[|s| - 1] == c then 1 else 0)
  }

  /** Where the decimal separator stands, or -1. */
  function IndiceDecimal(s: string): (k: int)
    ensures -1 <= k < |s|
  {
    var lastDot, lastComma := LastIndex(s, '.'), LastIndex(s, ',');
    if lastDot >= 0 && lastComma >= 0 then
      if lastDot > lastComma then lastDot else lastComma
    else if lastDot >= 0 || lastComma >= 0 then
      var sep, idx := if lastComma >= 0 then ',' else '.', if lastComma >= 0 then lastComma else lastDot;
      if Count(s, sep) == 1 && 1 <= |s| - idx - 1 <= 2 then idx else -1
    else -1
  }

  /** The text cut at every separator, empty pieces included. */
  function Split(s: string): (g: seq<string>)
    ensures |g| >= 1
  {
    if s == "" then [""]
    else
      var g := Split(s[..|s| - 1]);
      if Separador(s[|s| - 1]) then g + [""] else g[..|g| - 1] + [g[|g| - 1] + [s[|s| - 1]]]
  }

  /** strings.FieldsFunc: the non-empty pieces. */
  function NaoVazios(g: seq<string>): seq<string> {
    if g == [] then []
    else NaoVazios(g[..|g| - 1]) + (if g[|g| - 1] == "" then [] else [g[|g| - 1]])
  }

  predicate GrupoOk(i: int, g: string) {
    if i == 0 then 1 <= |g| <= 3 else |g| == 3
  }

  predicate ValidThousandsSpec(s: string) {
    !('.' in s && ',' in s) && forall i :: 0 <= i < |Split(s)| ==> GrupoOk(i, Split(s)[i])
  }

  method ValidThousands(s: string) returns (b: bool)
    ensures b == ValidThousandsSpec(s)
  {
    if '.' in s && ',' in s {
      return false;
    }
    var groups := NaoVazios(Split(s));
    SplitCount(s);
    FieldsCount(Split(s));
    if |groups| != Count(s, '.') + Count(s, ',') + 1 {
      return false;
    }
    var i := 0;
    while i < |groups|
      invariant 0 <= i <= |groups|
      invariant forall j :: 0 <= j < i ==> GrupoOk(j, groups[j])
    {
      if (i == 0 && (|groups[i]| < 1 || |groups[i]| > 3)) || (i > 0 && |groups[i]| != 3) {
        return false;
      }
      i := i + 1;
    }
    return true;
  }

  lemma {:induction false} SplitCount(s: string)
    ensures |Split(s)| == Count(s, '.') + Count(s, ',') + 1
  {
    if s != "" {
      SplitCount(s[..|s| - 1]);
    }
  }

  lemma {:induction false} FieldsCount(g: seq<string>)
    ensures |NaoVazios(g)| <= |g|
    ensures |NaoVazios(g)| == |g| ==> NaoVazios(g) == g
    ensures |NaoVazios(g)| < |g| ==> exists i :: 0 <= i < |g| && |g[i]| == 0
  {
    if g != [] {
      var h := g[..|g| - 1];
      assert g == h + [g[|g| - 1]];
      FieldsCount(h);
      if |NaoVazios(g)| < |g| {
        if g[|g| - 1] != "" {
          var i :| 0 <= i < |h| && |h[i]| == 0;
          assert |g[i]| == 0;
        }
      }
    }
  }

  function ValorDe(s: string): nat
    requires Digitos(s)
  {
    if s == "" then 0 else 10 * ValorDe(s[..|s| - 1]) + (s[|s| - 1] as int - '0' as int)
  }

  /** strings.NewReplacer(".", "", ",", "") */
  function SemSeparadores(s: string): string {
    Sem(Sem(s, '.'), ',')
  }

  predicate Aceito(c: char) {
    Digito(c) || Separador(c)
  }

  predicate Aceitos(s: string) {
    forall i :: 0 <= i < |s| ==> Aceito(s[i])
  }

  lemma {:induction false} StrippedDigits(s: string)
    requires Aceitos(s)
    ensures Digitos(SemSeparadores(s))
  {
    DroppedChar(s, '.');
    DroppedChar(Sem(s, '.'), ',');
    forall i | 0 <= i < |SemSeparadores(s)|
      ensures Digito(SemSeparadores(s)[i])
    {
      var c := SemSeparadores(s)[i];
      assert c in SemSeparadores(s);
      assert c in Sem(s, '.') && c in s && c != '.' && c != ',';
      var j :| 0 <= j < |s| && s[j] == c;
      assert Aceito(s[j]);
    }
  }

  lemma {:induction false} DroppedChar(s: string, c: char)
    ensures forall x :: x in Sem(s, c) <==> x in s && x != c
  {
    if s != "" {
      DroppedChar(s[..|s| - 1], c);
      assert s == s[..|s| - 1] + [s[|s| - 1]];
    }
  }

  function Completar(f: string): (r: string)
    ensures Digitos(f) ==> Digitos(r)
  {
    if |f| == 0 then "00" else if |f| == 1 then f + "0" else f
  }

  /** The two sides of the decimal separator as whole reais and cents. */
  function LerPartes(intPart: string, fracPart: string, negativo: bool): Partes
    requires Aceitos(intPart) && Aceitos(fracPart)
  {
    if ContainsSep(intPart) && !ValidThousandsSpec(intPart) then SemPartes(Invalido)
    else if ContainsSep(fracPart) || |fracPart| > 2 then SemPartes(Invalido)
    else
      assert Digitos(SemSeparadores(intPart)) by { StrippedDigits(intPart); }
      assert Digitos(fracPart) by { FractionDigits(fracPart); }
      Partes(negativo, ValorDe(SemSeparadores(intPart)), ValorDe(Completar(fracPart)))
  }

  /** The sign-free text, split at its decimal separator if it has one. */
  function LerCorpo(s: string, negativo: bool): Partes
    requires Aceitos(s)
  {
    var k := IndiceDecimal(s);
    if k >= 0 then LerPartes(s[..k], s[k + 1..], negativo) else LerPartes(s, "", negativo)
  }

  lemma FractionDigits(f: string)
    requires Aceitos(f) && !ContainsSep(f)
    ensures Digitos(f)
  {
    forall i | 0 <= i < |f| ensures Digito(f[i]) { assert Aceito(f[i]); }
  }

  /** Everything ParseMoney does before its arithmetic. */
  function Ler(raw: string): Partes {
    var s := Limpar(raw);
    if s == "" then SemPartes(Vazio)
    else
      var corpo := if s[0] == '-' then s[1..] else s;
      if !Aceitos(corpo) then SemPartes(Invalido) else LerCorpo(corpo, s[0] == '-')
  }

  function Calcular(p: Partes): Resultado<int, ErroValor> {
    match p
    case SemPartes(e) => Err(e)
    case Partes(negativo, reais, cents) =>
      if reais > MAX_INT64 || reais > MAX_INT64 / 100 then Err(Invalido)
      else
        var m := Wrap(Wrap(reais * 100) + cents);
        if m > MAX_MONEY then Err(AcimaDoLimite) else Ok(if negativo then Wrap(-m) else m)
  }

  function ParseSpec(raw: string): Resultado<int, ErroValor> {
    Calcular(Ler(raw))
  }

  method ParseMoney(raw: string) returns (r: Resultado<int, ErroValor>)
    ensures r == ParseSpec(raw)
  {
    var s := Limpar(raw);
    if s == "" {
      return Err(Vazio);
    }
    var negative := false;
    if "-" <= s {
      negative := true;
      s := s[1..];
    }
    var i := 0;
    while i < |s|
      invariant 0 <= i <= |s|
      invariant forall j :: 0 <= j < i ==> Aceito(s[j])
    {
      if !Digito(s[i]) && s[i] != '.' && s[i] != ',' {
        return Err(Invalido);
      }
      i := i + 1;
    }
    r := ParseCorpo(s, negative);
  }

  method ParseCorpo(s: string, negative: bool) returns (r: Resultado<int, ErroValor>)
    requires Aceitos(s)
    ensures r == Calcular(LerCorpo(s, negative))
  {
    var k := IndiceDecimal(s);
    var intPart, fracPart := s, "";
    if k >= 0 {
      intPart, fracPart := s[..k], s[k + 1..];
    }
    r := ParsePartes(intPart, fracPart, negative);
  }

  method ParsePartes(inteiro: string, fracao: string, negative: bool) returns (r: Resultado<int, ErroValor>)
    requires Aceitos(inteiro) && Aceitos(fracao)
    ensures r == Calcular(LerPartes(inteiro, fracao, negative))
  {
    var intPart, fracPart := inteiro, fracao;
    if ContainsSep(intPart) {
      var ok := ValidThousands(intPart);
      if !ok {
        return Err(Invalido);
      }
    }
    StrippedDigits(intPart);
    intPart := SemSeparadores(intPart);
    if ContainsSep(fracPart) || |fracPart| > 2 {
      return Err(Invalido);
    }
    FractionDigits(fracPart);
    if intPart == "" {
      intPart := "0";
    }
    fracPart := PreencherCentavos(fracPart);
    assert LerPartes(inteiro, fracao, negative) == Partes(negative, ValorDe(intPart), ValorDe(fracPart));
    r := Somar(ValorDe(intPart), ValorDe(fracPart), negative);
  }

  /** The arithmetic of ParseMoney, in int64. */
  method Somar(reais: nat, cents: nat, negative: bool) returns (r: Resultado<int, ErroValor>)
    ensures r == Calcular(Partes(negative, reais, cents))
  {
    if reais > MAX_INT64 || reais > MAX_INT64 / 100 {
      return Err(Invalido);
    }
    var m := Wrap(Wrap(reais * 100) + cents);
    if m > MAX_MONEY {
      return Err(AcimaDoLimite);
    }
    return Ok(if negative then Wrap(-m) else m);
  }

  method PreencherCentavos(f: string) returns (fracPart: string)
    requires Digitos(f) && |f| <= 2
    ensures Digitos(fracPart) && fracPart == Completar(f)
  {
    fracPart := f;
    while |fracPart| < 2
      invariant Digitos(fracPart) && |fracPart| <= 2 && Completar(fracPart) == Completar(f)
      decreases 2 - |fracPart|
    {
      fracPart := fracPart + "0";
    }
  }

  // ----- the grouping of thousands -----

  function Outro(sep: char): char {
    if sep == '.' then ',' else '.'
  }

  lemma NoSeparatorsInPrefix(y: string)
    requires y != "" && !ContainsSep(y)
    ensures !ContainsSep(y[..|y| - 1]) && !Separador(y[|y| - 1])
  {
    var z := y[..|y| - 1];
    forall i | 0 <= i < |z| ensures !Separador(z[i]) { assert z[i] == y[i]; }
  }

  lemma {:induction false} SplitAppend(x: string, sep: char, y: string)
    requires Separador(sep) && !ContainsSep(y)
    ensures Split(x + [sep] + y) == Split(x) + [y]
  {
    var s := x + [sep] + y;
    if y == "" {
      assert s[..|s| - 1] == x;
    } else {
      var z := y[..|y| - 1];
      assert y == z + [y[|y| - 1]];
      NoSeparatorsInPrefix(y);
      SplitAppend(x, sep, z);
      assert s[..|s| - 1] == x + [sep] + z;
    }
  }

  lemma {:induction false} SplitPlain(y: string)
    requires !ContainsSep(y)
    ensures Split(y) == [y]
  {
    if y != "" {
      var z := y[..|y| - 1];
      NoSeparatorsInPrefix(y);
      SplitPlain(z);
      assert y == z + [y[|y| - 1]];
    }
  }

  lemma {:induction false} DropOverConcat(x: string, y: string, c: char)
    ensures Sem(x + y, c) == Sem(x, c) + Sem(y, c)
  {
    if y == "" {
      assert x + y == x;
    } else {
      var s := x + y;
      assert s[..|s| - 1] == x + y[..|y| - 1];
      DropOverConcat(x, y[..|y| - 1], c);
    }
  }

  lemma {:induction false} DropNothing(s: string, c: char)
    requires c !in s
    ensures Sem(s, c) == s
  {
    if s != "" {
      assert s == s[..|s| - 1] + [s[|s| - 1]];
      DropNothing(s[..|s| - 1], c);
    }
  }

  lemma DigitsHaveNoSeparators(d: string)
    requires Digitos(d)
    ensures !ContainsSep(d) && '.' !in d && ',' !in d && SemSeparadores(d) == d
  {
    DropNothing(d, '.');
    DropNothing(d, ',');
  }

  lemma DropAround(x: string, sep: char, y: string, c: char)
    requires c !in y
    ensures Sem(x + [sep] + y, c) == Sem(x, c) + (if sep == c then "" else [sep]) + y
  {
    DropNothing(y, c);
    DropOverConcat(x + [sep], y, c);
    assert (x + [sep])[..|x|] == x;
  }

  lemma DropAtEnd(x: string, y: string, c: char)
    requires c !in y
    ensures Sem(x + y, c) == Sem(x, c) + y
  {
    DropNothing(y, c);
    DropOverConcat(x, y, c);
  }

  lemma StripGroup(x: string, sep: char, y: string)
    requires Separador(sep) && Digitos(y)
    ensures SemSeparadores(x + [sep] + y) == SemSeparadores(x) + y
  {
    DropAround(x, sep, y, '.');
    if sep == '.' {
      assert Sem(x, '.') + "" + y == Sem(x, '.') + y;
      DropAtEnd(Sem(x, '.'), y, ',');
    } else {
      DropAround(Sem(x, '.'), ',', y, ',');
      assert SemSeparadores(x) + "" + y == SemSeparadores(x) + y;
    }
  }

  lemma GroupSizesAppend(g: seq<string>, y: string)
    requires g != [] && forall i :: 0 <= i < |g| ==> GrupoOk(i, g[i])
    requires |y| == 3
    ensures forall i :: 0 <= i < |g + [y]| ==> GrupoOk(i, (g + [y])[i])
  {}

  /** A grouped number passes validThousands and stripping its separators gives the digits back. */
  lemma {:induction false} GroupedIsValid(d: string, sep: char)
    requires Digitos(d) && d != "" && Separador(sep)
    ensures Agrupado(Agrupar(d, sep), d, sep)
  {
    if |d| <= 3 {
      DigitsHaveNoSeparators(d);
      SplitPlain(d);
    } else {
      var x, y := d[..|d| - 3], d[|d| - 3..];
      assert d == x + y;
      GroupedIsValid(x, sep);
      var g := Agrupar(x, sep);
      OneMoreGroup(g, x, sep, y);
    }
  }

  /** g is the digits d grouped with sep, as validThousands wants them. */
  predicate Agrupado(g: string, d: string, sep: char) {
    && Aceitos(g) && Outro(sep) !in g && ValidThousandsSpec(g)
    && SemSeparadores(g) == d
  }

  lemma OneMoreGroup(g: string, d: string, sep: char, y: string)
    requires Separador(sep) && Agrupado(g, d, sep) && Digitos(y) && |y| == 3
    ensures Agrupado(g + [sep] + y, d + y, sep)
  {
    DigitsHaveNoSeparators(y);
    SplitAppend(g, sep, y);
    GroupSizesAppend(Split(g), y);
    StripGroup(g, sep, y);
  }

  /** validThousands accepts exactly the digit strings grouped in threes by one separator. */
  lemma {:induction false} ValidMeansGrouped(s: string, sep: char)
    requires Aceitos(s) && Separador(sep) && Outro(sep) !in s
    ensures ValidThousandsSpec(s) <==> s != "" && s == Agrupar(SemSeparadores(s), sep)
  {
    StrippedDigits(s);
    if s != "" && s == Agrupar(SemSeparadores(s), sep) {
      assert SemSeparadores(s) != "";
      GroupedIsValid(SemSeparadores(s), sep);
    }
    if ValidThousandsSpec(s) {
      ValidIsGrouped(s, sep);
    }
  }

  lemma {:induction false} ValidIsGrouped(s: string, sep: char)
    requires Aceitos(s) && Separador(sep) && Outro(sep) !in s && ValidThousandsSpec(s)
    ensures SemSeparadores(s) != "" && s == Agrupar(SemSeparadores(s), sep)
    decreases |s|
  {
    var k := LastIndex(s, sep);
    if k < 0 {
      assert sep !in s;
      DropNothing(s, '.');
      DropNothing(s, ',');
      SplitPlain(s);
      assert GrupoOk(0, Split(s)[0]);
    } else {
      var x, y := s[..k], s[k + 1..];
      assert s == x + [sep] + y;
      LastPiece(s, sep, k);
      OneGroupLess(x, sep, y);
      ValidIsGrouped(x, sep);
      StripGroup(x, sep, y);
      var d := SemSeparadores(x);
      assert (d + y)[..|d|] == d && (d + y)[|d|..] == y;
    }
  }

  lemma OneGroupLess(x: string, sep: char, y: string)
    requires Separador(sep) && !ContainsSep(y) && ValidThousandsSpec(x + [sep] + y)
    ensures (forall i :: 0 <= i < |Split(x)| ==> GrupoOk(i, Split(x)[i])) && |y| == 3
  {
    SplitAppend(x, sep, y);
    var g := Split(x);
    assert GrupoOk(|g|, (g + [y])[|g|]);
    forall i | 0 <= i < |g| ensures GrupoOk(i, g[i]) { assert GrupoOk(i, (g + [y])[i]); }
  }

  lemma LastPiece(s: string, sep: char, k: nat)
    requires Aceitos(s) && Separador(sep) && Outro(sep) !in s && LastIndex(s, sep) == k
    ensures Aceitos(s[..k]) && Outro(sep) !in s[..k] && sep !in s[k + 1..]
    ensures Digitos(s[k + 1..]) && !ContainsSep(s[k + 1..])
  {
    forall i | k < i < |s| ensures Digito(s[i]) {
      assert Aceito(s[i]) && s[i] in s;
    }
  }

  // ----- reading back what was printed -----

  lemma {:induction false} NatReadsBack(v: nat)
    ensures ValorDe(FormatNat(v)) == v
  {
    if v >= 10 {
      NatReadsBack(v / 10);
      var s := FormatNat(v);
      assert s[..|s| - 1] == FormatNat(v / 10);
    } else {
      assert FormatNat(v)[..0] == "";
    }
  }

  lemma CentsReadBack(r: nat)
    requires r < 100
    ensures var f := FormatDoisDigitos(r); |f| == 2 && Digitos(f) && ValorDe(f) == r
  {
    var f := FormatDoisDigitos(r);
    NatReadsBack(r);
    if r < 10 {
      assert f[..1] == "0" && "0"[..0] == "";
    } else {
      assert FormatNat(r / 10) == [Algarismo(r / 10)];
    }
  }

  lemma {:induction false} CountOverConcat(a: string, b: string, c: char)
    ensures Count(a + b, c) == Count(a, c) + Count(b, c)
  {
    if b == "" {
      assert a + b == a;
    } else {
      assert (a + b)[..|a + b| - 1] == a + b[..|b| - 1];
      CountOverConcat(a, b[..|b| - 1], c);
    }
  }

  lemma CountSplitSeparator(a: string, sep: char, f: string)
    requires sep !in a && sep !in f
    ensures Count(a + [sep] + f, sep) == 1
  {
    CountAbsent(a, sep);
    CountAbsent(f, sep);
    CountOverConcat(a + [sep], f, sep);
    CountOverConcat(a, [sep], sep);
    assert [sep][..0] == "" && Count([sep], sep) == 1;
  }

  lemma {:induction false} CountAbsent(a: string, c: char)
    requires c !in a
    ensures Count(a, c) == 0
  {
    if a != "" {
      CountAbsent(a[..|a| - 1], c);
    }
  }

  lemma DecimalIndex(a: string, sep: char, f: string)
    requires Aceitos(a) && sep !in a && Separador(sep) && Digitos(f) && |f| <= 2
    requires f != "" || Outro(sep) in a
    ensures IndiceDecimal(a + [sep] + f) == |a| && Aceitos(a + [sep] + f)
  {
    var s := a + [sep] + f;
    CountSplitSeparator(a, sep, f);
    assert s[|a|] == sep;
    assert LastIndex(s, sep) == |a|;
    assert LastIndex(s, Outro(sep)) < |a|;
    if Outro(sep) in a {
      var i :| 0 <= i < |a| && a[i] == Outro(sep);
      assert s[i] == Outro(sep);
    }
  }

  /** An integer part, a separator that does not occur in it, and up to two digits of cents: none only after
      the other separator. */
  lemma ReadDecimal(a: string, sep: char, f: string, negativo: bool)
    requires Aceitos(a) && sep !in a && Separador(sep) && Digitos(f) && |f| <= 2
    requires f != "" || Outro(sep) in a
    requires ContainsSep(a) ==> ValidThousandsSpec(a)
    requires Digitos(SemSeparadores(a))
    ensures Aceitos(a + [sep] + f)
    ensures LerCorpo(a + [sep] + f, negativo) == Partes(negativo, ValorDe(SemSeparadores(a)), ValorDe(Completar(f)))
  {
    var s := a + [sep] + f;
    DecimalIndex(a, sep, f);
    SplitAround(a, sep, f);
    SplitAtDecimal(s, a, f, negativo);
    ReadParts(a, f, negativo);
  }

  lemma SplitAround(a: string, sep: char, f: string)
    ensures var s := a + [sep] + f; s[..|a|] == a && s[|a| + 1..] == f
  {}

  lemma SplitAtDecimal(s: string, a: string, f: string, negativo: bool)
    requires Aceitos(s) && Aceitos(a) && Aceitos(f)
    requires IndiceDecimal(s) == |a| < |s| && s[..|a|] == a && s[|a| + 1..] == f
    ensures LerCorpo(s, negativo) == LerPartes(a, f, negativo)
  {}

  lemma ReadParts(a: string, f: string, negativo: bool)
    requires Aceitos(a) && Digitos(f) && |f| <= 2 && (ContainsSep(a) ==> ValidThousandsSpec(a))
    requires Digitos(SemSeparadores(a))
    ensures LerPartes(a, f, negativo) == Partes(negativo, ValorDe(SemSeparadores(a)), ValorDe(Completar(f)))
  {
    DigitsHaveNoSeparators(f);
  }

  predicate Imprimivel(t: string) {
    forall i :: 0 <= i < |t| ==> Aceito(t[i]) || t[i] == '-'
  }

  lemma PrintableChars(t: string)
    requires Imprimivel(t)
    ensures ' ' !in t && (0xA0 as char) !in t
    ensures forall i :: 0 <= i < |t| ==> !Espaco(t[i]) && !('a' <= t[i] <= 'z') && t[i] != 'R'
  {
  }

  lemma UpperIsIdentity(t: string)
    requires forall i :: 0 <= i < |t| ==> !('a' <= t[i] <= 'z')
    ensures ToUpper(t) == t
  {
  }

  lemma TrimIsIdentity(t: string)
    requires t != "" && !Espaco(t[0]) && !Espaco(t[|t| - 1])
    ensures TrimSpace(t) == t
  {
  }

  lemma DropBoth(t: string)
    requires ' ' !in t && (0xA0 as char) !in t
    ensures Sem(Sem(t, ' '), 0xA0 as char) == t
  {
    DropNothing(t, ' ');
    DropNothing(t, 0xA0 as char);
  }

  /** Text made of digits, separators and '-' goes through the clean-up unchanged. */
  lemma CleanIsIdentity(t: string)
    requires Imprimivel(t) && t != ""
    ensures Limpar(t) == t
  {
    PrintableChars(t);
    TrimIsIdentity(t);
    UpperIsIdentity(t);
    DropBoth(t);
  }

  lemma DropLeadingSpace(t: string)
    requires ' ' !in t && (0xA0 as char) !in t
    ensures Sem(Sem(" " + t, ' '), 0xA0 as char) == t
  {
    DropOverConcat(" ", t, ' ');
    assert " "[..0] == "" && Sem(" ", ' ') == "";
    DropNothing(t, ' ');
    assert "" + t == t;
    DropNothing(t, 0xA0 as char);
  }

  lemma CleanDropsCurrency(raw: string, t: string)
    requires raw == "R$ " + t && Aceitos(t) && t != ""
    ensures Limpar(raw) == t
  {
    PrintableChars(t);
    TrimIsIdentity(raw);
    UpperIsIdentity(raw);
    assert raw[2..] == " " + t;
    DropLeadingSpace(t);
  }

  /** The sign of a printed negative amount keeps "R$" from being taken off. */
  lemma CleanKeepsCurrency(raw: string, t: string)
    requires raw == "-R$ " + t && Imprimivel(t) && t != ""
    ensures Limpar(raw) == "-R$" + t
  {
    PrintableChars(t);
    TrimIsIdentity(raw);
    UpperIsIdentity(raw);
    assert raw == "-R$" + [' '] + t;
    DropInnerSpace("-R$", t);
  }

  lemma DropInnerSpace(p: string, t: string)
    requires ' ' !in p && (0xA0 as char) !in p && ' ' !in t && (0xA0 as char) !in t
    ensures Sem(Sem(p + [' '] + t, ' '), 0xA0 as char) == p + t
  {
    assert Sem(p + [' '] + t, ' ') == p + t by { DropSpaceBetween(p, t); }
    NotInEither(p, t, 0xA0 as char);
    DropNothing(p + t, 0xA0 as char);
  }

  lemma DropSpaceBetween(p: string, t: string)
    requires ' ' !in p && ' ' !in t
    ensures Sem(p + [' '] + t, ' ') == p + t
  {
    DropOverConcat(p + [' '], t, ' ');
    DropLast(p, ' ');
    DropNothing(p, ' ');
    DropNothing(t, ' ');
  }

  lemma DropLast(p: string, c: char)
    ensures Sem(p + [c], c) == Sem(p, c)
  {
    assert (p + [c])[..|p|] == p;
  }

  lemma NotInEither(p: string, t: string, c: char)
    requires c !in p && c !in t
    ensures c !in p + t
  {}

  lemma ReadUnsigned(raw: string, t: string)
    requires Limpar(raw) == t && t != "" && Aceitos(t)
    ensures Ler(raw) == LerCorpo(t, false)
  {
    assert Aceito(t[0]);
  }

  lemma ReadSigned(raw: string, t: string)
    requires Limpar(raw) == "-" + t
    ensures Ler(raw) == if Aceitos(t) then LerCorpo(t, true) else SemPartes(Invalido)
  {
    assert ("-" + t)[1..] == t;
  }

  lemma ReadBadSigned(raw: string, t: string)
    requires Limpar(raw) == "-" + t && !Aceitos(t)
    ensures Ler(raw) == SemPartes(Invalido)
  {
    assert ("-" + t)[1..] == t;
  }

  /** What String prints is read as the amount's sign, reais and cents. */
  lemma PrintedIsRead(m: int)
    requires MIN_INT64 < m <= MAX_INT64
    ensures Ler(String(m)) == Partes(m < 0, Absoluto(m) / 100, Absoluto(m) % 100)
  {
    var t := Corpo(Absoluto(m), '.', false);
    PrintedBody(Absoluto(m), false, m < 0);
    assert String(m) == Sinal(m) + t by {
      PrintedString(m);
    }
    if m < 0 {
      ReadNegative(String(m), t);
    } else {
      ReadPositive(String(m), t);
    }
  }

  lemma ReadNegative(raw: string, t: string)
    requires raw == "-" + t && t != "" && Aceitos(t)
    ensures Ler(raw) == LerCorpo(t, true)
  {
    CleanIsIdentity(raw);
    ReadSigned(raw, t);
  }

  lemma ReadPositive(raw: string, t: string)
    requires raw == t && t != "" && Aceitos(t)
    ensures Ler(raw) == LerCorpo(t, false)
  {
    CleanIsIdentity(raw);
    ReadUnsigned(raw, t);
  }

  /** The text both printers give the sign-free amount, with the given separators. */
  function Corpo(v: nat, decimal: char, agrupado: bool): string {
    var d := FormatNat(v / 100);
    (if agrupado then Agrupar(d, '.') else d) + [decimal] + FormatDoisDigitos(v % 100)
  }

  lemma PrintedBody(v: nat, agrupado: bool, negativo: bool)
    ensures var t := Corpo(v, if agrupado then ',' else '.', agrupado);
            && t != "" && Aceitos(t) && LerCorpo(t, negativo) == Partes(negativo, v / 100, v % 100)
  {
    var d, f := FormatNat(v / 100), FormatDoisDigitos(v % 100);
    CentsReadBack(v % 100);
    NatReadsBack(v / 100);
    if agrupado {
      GroupedIsValid(d, '.');
      ReadDecimal(Agrupar(d, '.'), ',', f, negativo);
    } else {
      DigitsHaveNoSeparators(d);
      ReadDecimal(d, '.', f, negativo);
    }
  }

  lemma PrintedChars(v: nat, agrupado: bool)
    ensures var t := Corpo(v, if agrupado then ',' else '.', agrupado); t != "" && Aceitos(t)
  {
    PrintedBody(v, agrupado, false);
  }

  lemma QuotientOfPrinted(v: nat)
    ensures FormatInt(Quo(v, 100)) == FormatNat(v / 100) && Rem(v, 100) == v % 100
  {
  }

  lemma PrintedString(m: int)
    requires MIN_INT64 < m <= MAX_INT64
    ensures String(m) == Sinal(m) + Corpo(Absoluto(m), '.', false)
  {
    var v := Absoluto(m);
    QuotientOfPrinted(v);
    var q, f := FormatNat(v / 100), FormatDoisDigitos(v % 100);
    assert Sinal(m) + q + "." + f == Sinal(m) + (q + "." + f);
  }

  lemma PrintedBRL(m: int)
    requires MIN_INT64 < m <= MAX_INT64
    ensures BRLSpec(m) == Sinal(m) + "R$ " + Corpo(Absoluto(m), ',', true)
  {
    var v := Absoluto(m);
    QuotientOfPrinted(v);
    var g, f := Agrupar(FormatNat(v / 100), '.'), FormatDoisDigitos(v % 100);
    assert Sinal(m) + "R$ " + g + "," + f == Sinal(m) + "R$ " + (g + "," + f);
  }

  lemma AmountsInRange(p: Partes, m: int)
    requires MIN_INT64 < m <= MAX_INT64 && p == Partes(m < 0, Absoluto(m) / 100, Absoluto(m) % 100)
    ensures Calcular(p) == Ok(m) <==> -MAX_MONEY <= m <= MAX_MONEY
  {
    var v := Absoluto(m);
    assert v / 100 * 100 + v % 100 == v;
  }

  /** ParseMoney reads back what String printed exactly for the amounts it is meant to hold. */
  lemma StringRoundTrip(m: int)
    requires Int64(m)
    ensures ParseSpec(String(m)) == Ok(m) <==> -MAX_MONEY <= m <= MAX_MONEY
  {
    if m == MIN_INT64 {
      MostNegativeIsUnreadable();
    } else {
      PrintedIsRead(m);
      AmountsInRange(Ler(String(m)), m);
    }
  }

  lemma MostNegativeText(q: string, r: string)
    requires q == FormatInt(Quo(MIN_INT64, 100)) && r == FormatDoisDigitos(Rem(MIN_INT64, 100))
    ensures String(MIN_INT64) == "-" + (q + "." + r)
  {
    assert Absoluto(MIN_INT64) == MIN_INT64;
    assert "-" + q + "." + r == "-" + (q + "." + r);
  }

  lemma PrintableNegatives(v: int)
    requires v < 0
    ensures Imprimivel(FormatInt(v)) && "-" <= FormatInt(v) && FormatDoisDigitos(v) == FormatInt(v)
  {
    var d := FormatNat(-v);
    assert FormatInt(v) == "-" + d;
    assert forall i :: 0 <= i < |d| ==> Aceito(d[i]);
  }

  lemma MostNegativeIsUnreadable()
    ensures Ler(String(MIN_INT64)) == SemPartes(Invalido)
  {
    var q, c := FormatInt(Quo(MIN_INT64, 100)), FormatDoisDigitos(Rem(MIN_INT64, 100));
    assert Imprimivel(q + "." + c) && "-" <= q + "." + c by {
      PrintableNegatives(Quo(MIN_INT64, 100));
      PrintableNegatives(Rem(MIN_INT64, 100));
    }
    MostNegativeText(q, c);
    UnreadableSign(String(MIN_INT64), q + "." + c);
  }

  lemma UnreadableSign(raw: string, t: string)
    requires raw == "-" + t && Imprimivel(t) && "-" <= t
    ensures Ler(raw) == SemPartes(Invalido)
  {
    CleanIsIdentity(raw);
    assert !Aceito(t[0]);
    ReadSigned(raw, t);
  }

  lemma PositiveBRLText(m: int)
    requires 0 <= m <= MAX_INT64
    ensures BRLSpec(m) == "R$ " + Corpo(m, ',', true)
  {
    PrintedBRL(m);
    assert "" + "R$ " == "R$ ";
  }

  lemma GroupedIsRead(m: int)
    requires 0 <= m <= MAX_INT64
    ensures Ler(BRLSpec(m)) == Partes(false, m / 100, m % 100)
  {
    var t := Corpo(m, ',', true);
    PrintedBody(m, true, false);
    assert Limpar(BRLSpec(m)) == t by {
      PositiveBRLText(m);
      CleanDropsCurrency(BRLSpec(m), t);
    }
    ReadUnsigned(BRLSpec(m), t);
  }

  lemma NegativeBRLText(m: int)
    requires MIN_INT64 < m < 0
    ensures BRLSpec(m) == "-R$ " + Corpo(-m, ',', true)
  {
    PrintedBRL(m);
    assert Absoluto(m) == -m && "-" + "R$ " == "-R$ ";
  }

  lemma NegativeBRLBody(m: int) returns (t: string)
    requires MIN_INT64 < m < 0
    ensures BRLSpec(m) == "-R$ " + t && t != "" && Aceitos(t)
  {
    t := Corpo(-m, ',', true);
    assert t != "" && Aceitos(t) by { PrintedChars(-m, true); }
    assert BRLSpec(m) == "-R$ " + t by { NegativeBRLText(m); }
  }

  lemma {:induction false} GroupedIsPrintable(d: string)
    requires Imprimivel(d)
    ensures Imprimivel(Agrupar(d, '.'))
  {
    if |d| > 3 {
      GroupedIsPrintable(d[..|d| - 3]);
      PrintableAround(Agrupar(d[..|d| - 3], '.'), '.', d[|d| - 3..]);
    }
  }

  lemma PrintableAround(a: string, sep: char, b: string)
    requires Imprimivel(a) && Imprimivel(b) && Separador(sep)
    ensures Imprimivel(a + [sep] + b)
  {}

  /** The smallest int64 prints with a sign inside the number as well. */
  lemma MostNegativeBRLBody() returns (t: string)
    ensures BRLSpec(MIN_INT64) == "-R$ " + t && t != "" && Imprimivel(t)
  {
    var q, c := FormatInt(Quo(MIN_INT64, 100)), FormatDoisDigitos(Rem(MIN_INT64, 100));
    PrintableNegatives(Quo(MIN_INT64, 100));
    PrintableNegatives(Rem(MIN_INT64, 100));
    GroupedIsPrintable(q);
    var g := Agrupar(q, '.');
    t := g + "," + c;
    PrintableAround(g, ',', c);
    MostNegativeBRLText(g, c);
  }

  lemma MostNegativeBRLText(g: string, c: string)
    requires g == Agrupar(FormatInt(Quo(MIN_INT64, 100)), '.') && c == FormatDoisDigitos(Rem(MIN_INT64, 100))
    ensures BRLSpec(MIN_INT64) == "-R$ " + (g + "," + c)
  {
    assert Absoluto(MIN_INT64) == MIN_INT64;
    assert "-" + "R$ " + g + "," + c == "-R$ " + (g + "," + c);
  }

  lemma NegativeBRLIsUnreadable(m: int)
    requires MIN_INT64 <= m < 0
    ensures Ler(BRLSpec(m)) == SemPartes(Invalido)
  {
    if m == MIN_INT64 {
      var t := MostNegativeBRLBody();
      CurrencyAfterSign(BRLSpec(m), t);
    } else {
      var t := NegativeBRLBody(m);
      CurrencyAfterSign(BRLSpec(m), t);
    }
  }

  lemma CurrencyAfterSign(raw: string, t: string)
    requires raw == "-R$ " + t && Imprimivel(t) && t != ""
    ensures Ler(raw) == SemPartes(Invalido)
  {
    CleanKeepsCurrency(raw, t);
    var u := SignedCurrency(t);
    ReadBadSigned(raw, u);
  }

  lemma SignedCurrency(t: string) returns (u: string)
    ensures "-R$" + t == "-" + u && !Aceitos(u)
  {
    u := "R$" + t;
    assert !Aceito(u[0]);
  }

  /** ParseMoney reads back what BRL printed, except that it never reads a negative amount. */
  lemma BRLRoundTrip(m: int)
    requires Int64(m)
    ensures ParseSpec(BRLSpec(m)) == Ok(m) <==> 0 <= m <= MAX_MONEY
  {
    if m >= 0 {
      GroupedIsRead(m);
      AmountsInRange(Ler(BRLSpec(m)), m);
    } else {
      NegativeBRLIsUnreadable(m);
    }
  }

  // ----- what ParseMoney accepts -----

  lemma CentsBelowHundred(s: string, negativo: bool)
    requires Aceitos(s) && LerCorpo(s, negativo).Partes?
    ensures 0 <= LerCorpo(s, negativo).cents < 100
  {
    var k := IndiceDecimal(s);
    if k >= 0 {
      CentsOfParts(s[..k], s[k + 1..], negativo);
    } else {
      CentsOfParts(s, "", negativo);
    }
  }

  lemma CentsOfParts(i: string, f: string, negativo: bool)
    requires Aceitos(i) && Aceitos(f) && LerPartes(i, f, negativo).Partes?
    ensures 0 <= LerPartes(i, f, negativo).cents < 100
  {
    FractionDigits(f);
    TwoDigitsBelowHundred(Completar(f));
  }

  lemma TwoDigitsBelowHundred(f: string)
    requires Digitos(f) && |f| == 2
    ensures 0 <= ValorDe(f) < 100
  {
    var g := f[..1];
    assert |f| - 1 == 1 && |g| - 1 == 0 && g[..0] == "";
    assert ValorDe(g) == g[0] as int - '0' as int;
    assert Digito(f[0]) && Digito(f[1]);
  }

  /** The amount an accepted text denotes, before int64 arithmetic. */
  function Denotado(p: Partes): int
    requires p.Partes?
  {
    (p.reais * 100 + p.cents) * if p.negativo then -1 else 1
  }

  predicate Estoura(p: Partes) {
    p.Partes? && p.reais == MAX_INT64 / 100 && p.cents >= 8
  }

  lemma CalculationOutcome(p: Partes)
    requires p.Partes? && p.reais >= 0 && 0 <= p.cents < 100
    ensures Calcular(p).Ok? <==> -MAX_MONEY <= Denotado(p) <= MAX_MONEY || Estoura(p)
    ensures Calcular(p).Ok? && !Estoura(p) ==> Calcular(p).valor == Denotado(p)
    ensures Estoura(p) ==> !(-MAX_MONEY <= Calcular(p).valor <= MAX_MONEY)
  {
  }

  /** Exactly what ParseMoney accepts: the amounts up to MaxMoney, with their own value, and the
      texts whose reais * 100 + cents wraps around, with a value far outside the limit. */
  lemma AcceptedAmounts(raw: string)
    requires Ler(raw).Partes?
    ensures ParseSpec(raw).Ok? <==> -MAX_MONEY <= Denotado(Ler(raw)) <= MAX_MONEY || Estoura(Ler(raw))
    ensures ParseSpec(raw).Ok? && !Estoura(Ler(raw)) ==> ParseSpec(raw).valor == Denotado(Ler(raw))
    ensures Estoura(Ler(raw)) ==> !(-MAX_MONEY <= ParseSpec(raw).valor <= MAX_MONEY)
  {
    var s := Limpar(raw);
    var corpo := if s[0] == '-' then s[1..] else s;
    CentsBelowHundred(corpo, s[0] == '-');
    CalculationOutcome(Ler(raw));
  }

  /** From "92233720368547758.08" to "92233720368547758.99", all far above MaxMoney, the amount is
      accepted as what is left of it after int64 wraps around, a negative number. */
  lemma WrappedAmountIsAccepted(v: nat)
    requires v / 100 == MAX_INT64 / 100 && v % 100 >= 8
    ensures ParseSpec(Corpo(v, '.', false)) == Ok(v - 0x1_0000_0000_0000_0000)
    ensures v > MAX_MONEY && v - 0x1_0000_0000_0000_0000 < -MAX_MONEY
  {
    PlainIsRead(v);
    CalculationWraps(v, v / 100, v % 100);
  }

  lemma PlainIsRead(v: nat)
    ensures ParseSpec(Corpo(v, '.', false)) == Calcular(Partes(false, v / 100, v % 100))
  {
    var t := Corpo(v, '.', false);
    PrintedBody(v, false, false);
    CleanIsIdentity(t);
    ReadUnsigned(t, t);
  }

  lemma CalculationWraps(v: nat, reais: nat, cents: nat)
    requires v == reais * 100 + cents && reais == MAX_INT64 / 100 && 8 <= cents < 100
    ensures Calcular(Partes(false, reais, cents)) == Ok(v - 0x1_0000_0000_0000_0000)
  {}
}
