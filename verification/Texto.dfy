/** Text fields as the domain normalises them before checking their length. */
module Texto {

  /** unicode.IsSpace */
  predicate Espaco(c: char) {
    var n := c as int;
    9 <= n <= 13 || n == 32 || n == 0x85 || n == 0xA0 || n == 0x1680 || 0x2000 <= n <= 0x200A
    || n == 0x2028 || n == 0x2029 || n == 0x202F || n == 0x205F || n == 0x3000
  }

  /** strings.TrimSpace(s) == "" */
  predicate EmBranco(s: string) {
    forall i :: 0 <= i < |s| ==> Espaco(s[i])
  }

  /** strings.Join(strings.Fields(s), " ") */
  function Normalizado(s: string): (n: string)
    ensures |n| <= |s|
  {
    if s == "" then ""
    else
      var r, c := Normalizado(s[..|s| - 1]), s[|s| - 1];
      if Espaco(c) then r
      else if r != "" && Espaco(s[|s| - 2]) then r + [' ', c]
      else r + [c]
  }

  /** strings.Fields: the runs of characters between spaces. */
  function Palavras(s: string): seq<string> {
    if s == "" then []
    else
      var w, c := Palavras(s[..|s| - 1]), s[|s| - 1];
      if Espaco(c) then w
      else if w == [] || Espaco(s[|s| - 2]) then w + [[c]]
      else w[..|w| - 1] + [w[|w| - 1] + [c]]
  }

  function Juntar(ws: seq<string>): string {
    if ws == [] then "" else if |ws| == 1 then ws[0] else Juntar(ws[..|ws| - 1]) + " " + ws[|ws| - 1]
  }

  predicate Palavra(w: string) {
    w != "" && forall i :: 0 <= i < |w| ==> !Espaco(w[i])
  }

  lemma {:induction false} WordsHaveNoSpaces(s: string)
    ensures forall i :: 0 <= i < |Palavras(s)| ==> Palavra(Palavras(s)[i])
  {
    if s != "" {
      WordsHaveNoSpaces(s[..|s| - 1]);
    }
  }

  /** A text is normalised to its words, one space apart. */
  lemma {:induction false} NormalizedIsJoined(s: string)
    ensures Normalizado(s) == Juntar(Palavras(s))
    ensures Palavras(s) == [] <==> Normalizado(s) == ""
  {
    if s != "" {
      NormalizedIsJoined(s[..|s| - 1]);
      OneMoreLetter(s, Palavras(s[..|s| - 1]));
    }
  }

  lemma OneMoreLetter(s: string, w: seq<string>)
    requires s != "" && w == Palavras(s[..|s| - 1])
    requires Normalizado(s[..|s| - 1]) == Juntar(w) && (w == [] <==> Juntar(w) == "")
    ensures Normalizado(s) == Juntar(Palavras(s)) && (Palavras(s) == [] <==> Normalizado(s) == "")
  {
    var c := s[|s| - 1];
    if !Espaco(c) {
      if w == [] || Espaco(s[|s| - 2]) {
        NewWord(w, c);
      } else {
        LongerWord(w, c);
      }
    }
  }

  lemma JoinOneMore(ws: seq<string>, w: string)
    ensures Juntar(ws + [w]) == if ws == [] then w else Juntar(ws) + " " + w
  {
    assert (ws + [w])[..|ws|] == ws;
  }

  lemma NewWord(ws: seq<string>, c: char)
    ensures Juntar(ws + [[c]]) == if ws == [] then [c] else Juntar(ws) + [' ', c]
  {
    JoinOneMore(ws, [c]);
    assert Juntar(ws) + " " + [c] == Juntar(ws) + [' ', c];
  }

  lemma LongerWord(ws: seq<string>, c: char)
    requires ws != []
    ensures Juntar(ws[..|ws| - 1] + [ws[|ws| - 1] + [c]]) == Juntar(ws) + [c]
  {
    var r, w := ws[..|ws| - 1], ws[|ws| - 1];
    JoinOneMore(r, w + [c]);
    if r != [] {
      LongerEnd(Juntar(r) + " ", w, c);
    }
  }

  lemma LongerEnd(a: string, w: string, c: char)
    ensures a + (w + [c]) == a + w + [c]
  {}

  // ----- numbers -----

  predicate Digito(c: char) {
    '0' <= c <= '9'
  }

  predicate Digitos(s: string) {
    forall i :: 0 <= i < |s| ==> Digito(s[i])
  }

  function Algarismo(d: int): (c: char)
    requires 0 <= d < 10
    ensures Digito(c)
  {
    '0' + d as char
  }

  function FormatNat(v: nat): (s: string)
    ensures Digitos(s) && |s| >= 1
  {
    if v < 10 then [Algarismo(v)] else FormatNat(v / 10) + [Algarismo(v % 10)]
  }

  lemma {:induction false} DigitCount(v: nat)
    requires v < 1000
    ensures |FormatNat(v)| == if v < 10 then 1 else if v < 100 then 2 else 3
  {
    if v >= 10 {
      DigitCount(v / 10);
    }
  }

  // ----- descriptions in the database -----

  /** The width of every column that holds a description. */
  const LARGURA_DESCRICAO := 255

  /** The description of instalment i of n. */
  function ComNumero(descricao: string, i: nat, n: nat): string {
    descricao + " (" + FormatNat(i) + "/" + FormatNat(n) + ")"
  }

  function Algarismos(n: nat): nat {
    if n < 10 then 1 else if n < 100 then 2 else 3
  }

  lemma NumberedLength(descricao: string, i: nat, n: nat)
    requires i <= n < 1000
    ensures |ComNumero(descricao, i, n)| == |descricao| + 4 + Algarismos(i) + Algarismos(n)
  {
    DigitCount(i);
    DigitCount(n);
  }

  /** The descriptions of instalments `de` to n fit their columns exactly when that of the last does. */
  lemma NumberedFitIff(descricao: string, de: nat, n: nat)
    requires 1 <= de <= n < 1000
    ensures (forall i :: de <= i <= n ==> |ComNumero(descricao, i, n)| <= LARGURA_DESCRICAO)
            <==> |descricao| + 4 + 2 * Algarismos(n) <= LARGURA_DESCRICAO
  {
    forall i | de <= i <= n
      ensures |ComNumero(descricao, i, n)| == |descricao| + 4 + Algarismos(i) + Algarismos(n)
    {
      NumberedLength(descricao, i, n);
    }
    NumberedLength(descricao, n, n);
  }
}
