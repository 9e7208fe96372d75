/** Tables as sequences in insertion order, and what deleting rows from them keeps. */
module Tabelas {

  function Filtrar<T>(s: seq<T>, f: T -> bool): seq<T> {
    if s == [] then [] else Filtrar(s[..|s| - 1], f) + if f(s[|s| - 1]) then [s[|s| - 1]] else []
  }

  lemma {:induction false} FilteredRows<T>(s: seq<T>, f: T -> bool)
    ensures forall x :: x in Filtrar(s, f) <==> x in s && f(x)
  {
    if s != [] {
      FilteredRows(s[..|s| - 1], f);
      assert s == s[..|s| - 1] + [s[|s| - 1]];
    }
  }

  lemma RowOfPrefix<T>(s: seq<T>, x: T)
    requires s != [] && x in s[..|s| - 1]
    ensures x in s
  {}

  lemma {:induction false} FilterKeepsAll<T>(s: seq<T>, f: T -> bool)
    requires forall x :: x in s ==> f(x)
    ensures Filtrar(s, f) == s
  {
    if s != [] {
      FilterKeepsAll(s[..|s| - 1], f);
      assert s == s[..|s| - 1] + [s[|s| - 1]];
    }
  }

  lemma FilterOfAppend<T>(s: seq<T>, x: T, f: T -> bool)
    ensures Filtrar(s + [x], f) == Filtrar(s, f) + if f(x) then [x] else []
  {
    assert (s + [x])[..|s|] == s;
  }

  lemma {:induction false} FilterShrinks<T>(s: seq<T>, f: T -> bool)
    ensures |Filtrar(s, f)| <= |s|
    ensures |Filtrar(s, f)| == |s| ==> Filtrar(s, f) == s
  {
    if s != [] {
      FilterShrinks(s[..|s| - 1], f);
      assert s == s[..|s| - 1] + [s[|s| - 1]];
    }
  }

  lemma {:induction false} FiltersCommute<T>(s: seq<T>, f: T -> bool, g: T -> bool)
    ensures Filtrar(Filtrar(s, f), g) == Filtrar(Filtrar(s, g), f)
  {
    if s != [] {
      var r, x := s[..|s| - 1], s[|s| - 1];
      FiltersCommute(r, f, g);
      FilterOfAppend(Filtrar(r, f), x, g);
      FilterOfAppend(Filtrar(r, g), x, f);
      assert Filtrar(r, f) + [] == Filtrar(r, f) && Filtrar(r, g) + [] == Filtrar(r, g);
      assert Filtrar(Filtrar(r, f), g) + [] == Filtrar(Filtrar(r, f), g);
    }
  }

  lemma {:induction false} FilterOfConcat<T>(s: seq<T>, t: seq<T>, f: T -> bool)
    ensures Filtrar(s + t, f) == Filtrar(s, f) + Filtrar(t, f)
  {
    if t == [] {
      assert s + t == s && Filtrar(s, f) + [] == Filtrar(s, f);
    } else {
      var r := t[..|t| - 1];
      FilterOfConcat(s, r, f);
      assert (s + t)[..|s + t| - 1] == s + r;
    }
  }

  lemma {:induction false} FilterDropsAll<T>(s: seq<T>, f: T -> bool)
    requires forall x :: x in s ==> !f(x)
    ensures Filtrar(s, f) == []
  {
    if s != [] {
      FilterDropsAll(s[..|s| - 1], f);
    }
  }

  function Somar<T>(s: seq<T>, f: T -> int): int {
    if s == [] then 0 else Somar(s[..|s| - 1], f) + f(s[|s| - 1])
  }

  lemma SumOfSingle<T>(x: T, f: T -> int)
    ensures Somar([x], f) == f(x)
  {
    var s := [x];
    assert s[..|s| - 1] == [];
    assert Somar(s[..|s| - 1], f) == 0;
  }

  /** Equal parts, what is left over in the first. */
  predicate EmPartes<T>(s: seq<T>, f: T -> int, parte: int, residuo: int) {
    forall i :: 0 <= i < |s| ==> f(s[i]) == parte + if i == 0 then residuo else 0
  }

  lemma {:induction false} SumOfParts<T>(s: seq<T>, f: T -> int, parte: int, residuo: int)
    requires s != [] && EmPartes(s, f, parte, residuo)
    ensures Somar(s, f) == residuo + parte * |s|
  {
    var k := |s|;
    if k > 1 {
      SumOfParts(s[..k - 1], f, parte, residuo);
      assert parte * k == parte * (k - 1) + parte;
    } else {
      assert s[..0] == [];
    }
  }
}
