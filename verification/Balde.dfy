/** Token-bucket arithmetic shared by the two rate limiters. */
module Balde {
  import opened Reais

  /** `taxa` tokens per second, at most `capacidade` of them: both positive, room for one. */
  datatype Limite = Limite(taxa: real, capacidade: real)

  predicate LimiteOk(l: Limite) {
    l.taxa > 0.0 && l.capacidade >= 1.0
  }

  function MinReal(a: real, b: real): real {
    if a < b then a else b
  }

  /** Tokens after `dt` clock units of 1/u second each. */
  function Recarga(l: Limite, u: real, tokens: real, dt: int): real
    requires u > 0.0
  {
    MinReal(l.capacidade, tokens + dt as real / u * l.taxa)
  }

  lemma GainIsMonotone(l: Limite, u: real, a: int, b: int)
    requires LimiteOk(l) && u > 0.0 && a <= b
    ensures a as real / u * l.taxa <= b as real / u * l.taxa
  {
    DivideKeepsOrder(a as real, b as real, u);
    ScaleKeepsOrder(a as real / u, b as real / u, l.taxa);
  }

  lemma GainAdds(l: Limite, u: real, a: int, b: int)
    requires u > 0.0
    ensures (a + b) as real / u * l.taxa == a as real / u * l.taxa + b as real / u * l.taxa
  {
    var x, y := a as real / u, b as real / u;
    assert (a + b) as real / u == x + y;
    assert (x + y) * l.taxa == x * l.taxa + y * l.taxa;
  }

  lemma DivideKeepsOrder(x: real, y: real, u: real)
    requires u > 0.0 && x <= y
    ensures x / u <= y / u
  {
    var d := (y - x) / u;
    assert y / u == x / u + d;
    assert d >= 0.0;
  }

  lemma ScaleKeepsOrder(x: real, y: real, g: real)
    requires g > 0.0
    ensures x <= y <==> x * g <= y * g
  {
    assert (y - x) * g == y * g - x * g;
    if x > y { PositiveProduct(x - y, g); } else { NonNegativeProduct(y - x, g); }
  }

  /** A bucket never holds less for having waited, nor gains more than the rate allows. */
  lemma RefillBounds(l: Limite, u: real, tokens: real, a: int, b: int)
    requires LimiteOk(l) && u > 0.0 && 0 <= a <= b && 0.0 <= tokens <= l.capacidade
    ensures 0.0 <= Recarga(l, u, tokens, a) <= Recarga(l, u, tokens, b) <= l.capacidade
    ensures Recarga(l, u, tokens, b) <= Recarga(l, u, tokens, a) + (b - a) as real / u * l.taxa
    ensures Recarga(l, u, tokens, 0) == tokens
  {
    GainIsMonotone(l, u, 0, a);
    GainIsMonotone(l, u, a, b);
    GainIsMonotone(l, u, 0, b - a);
    GainAdds(l, u, a, b - a);
    assert a + (b - a) == b;
    assert 0 as real / u * l.taxa == 0.0;
  }

  /** Waiting in two parts refills as much as waiting at once. */
  lemma RefillInTwo(l: Limite, u: real, tokens: real, a: int, b: int)
    requires LimiteOk(l) && u > 0.0 && 0 <= a <= b
    ensures Recarga(l, u, tokens, b) == MinReal(l.capacidade, Recarga(l, u, tokens, a) + (b - a) as real / u * l.taxa)
  {
    GainAdds(l, u, a, b - a);
    assert a + (b - a) == b;
    GainIsMonotone(l, u, 0, b - a);
    assert 0 as real / u * l.taxa == 0.0;
  }

  /** Time enough to fill the bucket from empty fills it from anything. */
  lemma FullAfter(l: Limite, u: real, tokens: real, dt: int)
    requires LimiteOk(l) && u > 0.0 && tokens >= 0.0 && dt as real >= l.capacidade / l.taxa * u
    ensures Recarga(l, u, tokens, dt) == l.capacidade
  {
    DivideKeepsOrder(l.capacidade / l.taxa * u, dt as real, u);
    assert l.capacidade / l.taxa * u / u == l.capacidade / l.taxa;
    ScaleKeepsOrder(l.capacidade / l.taxa, dt as real / u, l.taxa);
    assert l.capacidade / l.taxa * l.taxa == l.capacidade;
  }

  /** A bucket of x < 1 tokens holds one again exactly after (1 - x) / rate seconds. */
  lemma EnoughTime(l: Limite, u: real, x: real, d: nat)
    requires LimiteOk(l) && u > 0.0 && 0.0 <= x < 1.0
    ensures Recarga(l, u, x, d) >= 1.0 <==> d as real >= (1.0 - x) / l.taxa * u
  {
    var s, q := d as real / u, (1.0 - x) / l.taxa;
    assert s * u == d as real;
    ScaleKeepsOrder(q, s, u);
    assert q * l.taxa == 1.0 - x;
    ScaleKeepsOrder(q, s, l.taxa);
  }
}
