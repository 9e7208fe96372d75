/** The shared rate limiter: the token-bucket script run by Redis
    (internal/adapters/db/redis/ratelimiter.go).

    The script acts on one key; its clock is Redis's own, in milliseconds. A key whose expiry has
    passed reads as missing. */
module RedisRateLimit {
  import opened Comum
  import opened Balde

  datatype Hash = Hash(tokens: real, ts: int, expira: int)

  type Chave = Opcao<Hash>

  datatype Resposta = Resposta(permitido: bool, esperaMs: int)

  /** math.ceil */
  function Teto(x: real): int {
    -(-x).Floor
  }

  function Lida(k: Chave, now: int): Chave {
    if k.Algo? && now > k.valor.expira then Nada else k
  }

  function Tokens(l: Limite, k: Chave, now: int): real {
    if k.Nada? then l.capacidade
    else Recarga(l, 1000.0, k.valor.tokens, NaoNegativo(now - k.valor.ts))
  }

  function Validade(l: Limite): int
    requires LimiteOk(l)
  {
    Teto(l.capacidade / l.taxa * 1000.0) + 1000
  }

  function ScriptSpec(l: Limite, k: Chave, now: int): (Chave, Resposta)
    requires LimiteOk(l)
  {
    var tokens := Tokens(l, Lida(k, now), now);
    var restam := if tokens >= 1.0 then tokens - 1.0 else tokens;
    (Algo(Hash(restam, now, now + Validade(l))),
     Resposta(tokens >= 1.0, if tokens >= 1.0 then 0 else Teto((1.0 - tokens) / l.taxa * 1000.0)))
  }

  /** One bucket as Redis stores it. */
  class TokenBucket {
    var chave: Chave

    constructor ()
      ensures chave == Nada
    {
      chave := Nada;
    }

    method Script(l: Limite, now: int) returns (r: Resposta)
      requires LimiteOk(l)
      modifies this
      ensures (chave, r) == ScriptSpec(l, old(chave), now)
    {
      var tokens, ts := l.capacidade, now;
      var data := Lida(chave, now);
      if data.Algo? {
        tokens, ts := data.valor.tokens, data.valor.ts;
      }
      NoGainAtOnce(l);
      tokens := Recarga(l, 1000.0, tokens, NaoNegativo(now - ts));
      var allowed, wait := false, 0;
      if tokens >= 1.0 {
        tokens := tokens - 1.0;
        allowed := true;
      } else {
        wait := Teto((1.0 - tokens) / l.taxa * 1000.0);
      }
      chave := Algo(Hash(tokens, now, now + Teto(l.capacidade / l.taxa * 1000.0) + 1000));
      r := Resposta(allowed, wait);
    }
  }

  lemma NoGainAtOnce(l: Limite)
    requires LimiteOk(l)
    ensures Recarga(l, 1000.0, l.capacidade, 0) == l.capacidade
  {
    RefillBounds(l, 1000.0, l.capacidade, 0, 0);
  }

  // ----- waiting -----

  lemma CeilingIsLeast(x: real, d: int)
    ensures d as real >= x <==> d >= Teto(x)
  {
  }

  lemma TokensAreSound(l: Limite, k: Chave, now: int)
    requires LimiteOk(l) && (k.Algo? ==> 0.0 <= k.valor.tokens <= l.capacidade)
    ensures 0.0 <= Tokens(l, k, now) <= l.capacidade
  {
    if k.Algo? {
      RefillBounds(l, 1000.0, k.valor.tokens, 0, NaoNegativo(now - k.valor.ts));
    }
  }

  /** What the script leaves behind. */
  predicate Sa(l: Limite, k: Chave)
    requires LimiteOk(l)
  {
    k.Algo? ==> 0.0 <= k.valor.tokens <= l.capacidade && k.valor.expira == k.valor.ts + Validade(l)
  }

  /** The wait a refusal returns is exact: left alone, the same key is let through d milliseconds
      later if and only if d is at least that wait, whether or not the key expires meanwhile. */
  lemma WaitIsExact(l: Limite, k: Chave, now: int, d: nat)
    requires LimiteOk(l) && Sa(l, k) && !ScriptSpec(l, k, now).1.permitido
    ensures var (k', r) := ScriptSpec(l, k, now);
            ScriptSpec(l, k', now + d).1.permitido <==> d >= r.esperaMs
  {
    var x := Tokens(l, Lida(k, now), now);
    TokensAreSound(l, Lida(k, now), now);
    EnoughTime(l, 1000.0, x, d);
    CeilingIsLeast((1.0 - x) / l.taxa * 1000.0, d);
    WaitBeforeExpiry(l, x);
  }

  lemma WaitBeforeExpiry(l: Limite, x: real)
    requires LimiteOk(l) && 0.0 <= x < 1.0
    ensures Teto((1.0 - x) / l.taxa * 1000.0) <= Validade(l)
  {
    DivideKeepsOrder(1.0 - x, l.capacidade, l.taxa);
    ScaleKeepsOrder((1.0 - x) / l.taxa, l.capacidade / l.taxa, 1000.0);
    CeilingIsLeast(l.capacidade / l.taxa * 1000.0, Teto(l.capacidade / l.taxa * 1000.0));
    CeilingIsLeast((1.0 - x) / l.taxa * 1000.0, Teto(l.capacidade / l.taxa * 1000.0));
  }

  // ----- runs -----

  predicate Cronologico(ts: seq<int>, inicio: int, fim: int) {
    if ts == [] then inicio <= fim else inicio <= ts[0] && Cronologico(ts[1..], ts[0], fim)
  }

  function Respostas(l: Limite, k: Chave, ts: seq<int>): seq<Resposta>
    requires LimiteOk(l)
    decreases |ts|
  {
    if ts == [] then []
    else
      var (k', r) := ScriptSpec(l, k, ts[0]);
      [r] + Respostas(l, k', ts[1..])
  }

  /** The script on a key that never expires. */
  function SemExpirar(l: Limite, k: Chave, ts: seq<int>): seq<Resposta>
    requires LimiteOk(l)
    decreases |ts|
  {
    if ts == [] then []
    else
      var eterna := if k.Algo? then Algo(k.valor.(expira := ts[0])) else k;
      var (k', r) := ScriptSpec(l, eterna, ts[0]);
      [r] + SemExpirar(l, k', ts[1..])
  }

  lemma ExpiredIsFull(l: Limite, h: Hash, now: int)
    requires LimiteOk(l) && Sa(l, Algo(h)) && now > h.expira
    ensures Tokens(l, Algo(h), now) == l.capacidade
  {
    CeilingIsLeast(l.capacidade / l.taxa * 1000.0, now - h.ts);
    ValidityIsPositive(l);
    FullAfter(l, 1000.0, h.tokens, now - h.ts);
  }

  lemma ValidityIsPositive(l: Limite)
    requires LimiteOk(l)
    ensures Validade(l) >= 1000
  {
    DivideKeepsOrder(0.0, l.capacidade, l.taxa);
  }

  lemma ScriptStaysSound(l: Limite, k: Chave, now: int)
    requires LimiteOk(l) && Sa(l, k)
    ensures Sa(l, ScriptSpec(l, k, now).0)
  {
    TokensAreSound(l, Lida(k, now), now);
  }

  /** Expiry is invisible: every run on a key that Redis may drop answers as on one that it keeps. */
  lemma {:induction false} ExpiryIsInvisible(l: Limite, k: Chave, ts: seq<int>)
    requires LimiteOk(l) && Sa(l, k)
    ensures Respostas(l, k, ts) == SemExpirar(l, k, ts)
    decreases |ts|
  {
    if ts != [] {
      if k.Algo? && ts[0] > k.valor.expira {
        ExpiredIsFull(l, k.valor, ts[0]);
      }
      ScriptStaysSound(l, k, ts[0]);
      ExpiryIsInvisible(l, ScriptSpec(l, k, ts[0]).0, ts[1..]);
    }
  }

  function Gasto(l: Limite, k: Chave, now: int): nat
    requires LimiteOk(l)
  {
    if ScriptSpec(l, k, now).1.permitido then 1 else 0
  }

  function Permitidos(l: Limite, k: Chave, ts: seq<int>): nat
    requires LimiteOk(l)
    decreases |ts|
  {
    if ts == [] then 0 else Gasto(l, k, ts[0]) + Permitidos(l, ScriptSpec(l, k, ts[0]).0, ts[1..])
  }

  function Saldo(l: Limite, k: Chave, now: int): real {
    Tokens(l, Lida(k, now), now)
  }

  function Ganho(l: Limite, dt: int): real {
    dt as real / 1000.0 * l.taxa
  }

  lemma LaterGainsMore(l: Limite, a: int, b: int)
    requires LimiteOk(l) && a <= b
    ensures Ganho(l, a) <= Ganho(l, b) && Ganho(l, 0) == 0.0
  {
    GainIsMonotone(l, 1000.0, a, b);
  }

  lemma GainOfSpan(l: Limite, a: int, b: int, c: int)
    ensures Ganho(l, c - a) == Ganho(l, b - a) + Ganho(l, c - b)
  {
    GainAdds(l, 1000.0, b - a, c - b);
    assert (b - a) + (c - b) == c - a;
  }

  predicate Passada(k: Chave, now: int) {
    k.Algo? ==> k.valor.ts <= now
  }

  lemma BalanceGrows(l: Limite, k: Chave, a: int, b: int)
    requires LimiteOk(l) && Sa(l, k) && Passada(k, a) && a <= b
    ensures 0.0 <= Saldo(l, k, a) <= l.capacidade
    ensures Saldo(l, k, b) <= Saldo(l, k, a) + Ganho(l, b - a)
  {
    if k.Algo? {
      BalanceOfKeyGrows(l, k.valor, a, b);
    } else {
      GainIsMonotone(l, 1000.0, 0, b - a);
    }
  }

  lemma BalanceOfKeyGrows(l: Limite, h: Hash, a: int, b: int)
    requires LimiteOk(l) && Sa(l, Algo(h)) && h.ts <= a <= b
    ensures 0.0 <= Saldo(l, Algo(h), a) <= l.capacidade
    ensures Saldo(l, Algo(h), b) <= Saldo(l, Algo(h), a) + Ganho(l, b - a)
  {
    BalanceIsRefill(l, h, a);
    BalanceIsRefill(l, h, b);
    RefillBounds(l, 1000.0, h.tokens, a - h.ts, b - h.ts);
  }

  /** Whether or not the key has expired, what the script finds is what the stored hash refills to. */
  lemma BalanceIsRefill(l: Limite, h: Hash, now: int)
    requires LimiteOk(l) && Sa(l, Algo(h))
    ensures Saldo(l, Algo(h), now) == Tokens(l, Algo(h), now)
  {
    if now > h.expira {
      ExpiredIsFull(l, h, now);
    }
  }

  /** Left alone, expired or not, the key's balance grows by what the rate adds, up to the burst. */
  lemma RefillLaw(l: Limite, k: Chave, a: int, b: int)
    requires LimiteOk(l) && Sa(l, k) && Passada(k, a) && a <= b
    ensures Saldo(l, k, b) == MinReal(l.capacidade, Saldo(l, k, a) + Ganho(l, b - a))
  {
    if k.Algo? {
      RefillOfKey(l, k.valor, a, b);
    } else {
      LaterGainsMore(l, 0, b - a);
    }
  }

  lemma RefillOfKey(l: Limite, h: Hash, a: int, b: int)
    requires LimiteOk(l) && Sa(l, Algo(h)) && h.ts <= a <= b
    ensures Saldo(l, Algo(h), b) == MinReal(l.capacidade, Saldo(l, Algo(h), a) + Ganho(l, b - a))
  {
    BalanceIsRefill(l, h, a);
    BalanceIsRefill(l, h, b);
    RefillInTwo(l, 1000.0, h.tokens, a - h.ts, b - h.ts);
  }

  /** A call leaves the key to expire a second after the time a bucket takes to fill, rounded up. */
  lemma KeyExpires(l: Limite, k: Chave, now: int, t: int)
    requires LimiteOk(l)
    ensures Lida(ScriptSpec(l, k, now).0, t).Nada? <==> (t - now - 1001) as real >= l.capacidade / l.taxa * 1000.0
  {
    CeilingIsLeast(l.capacidade / l.taxa * 1000.0, t - now - 1001);
  }

  lemma CallSpendsOne(l: Limite, k: Chave, now: int)
    requires LimiteOk(l) && Sa(l, k)
    ensures Saldo(l, ScriptSpec(l, k, now).0, now) == Saldo(l, k, now) - Gasto(l, k, now) as real
  {
    TokensAreSound(l, Lida(k, now), now);
    ValidityIsPositive(l);
    var k' := ScriptSpec(l, k, now).0;
    RefillBounds(l, 1000.0, k'.valor.tokens, 0, 0);
  }

  lemma {:induction false} SpentIsBounded(l: Limite, k: Chave, ts: seq<int>, inicio: int, fim: int)
    requires LimiteOk(l) && Sa(l, k) && Passada(k, inicio) && Cronologico(ts, inicio, fim)
    ensures Permitidos(l, k, ts) as real <= Saldo(l, k, inicio) + Ganho(l, fim - inicio)
    decreases |ts|
  {
    if ts == [] {
      BalanceGrows(l, k, inicio, fim);
      GainIsMonotone(l, 1000.0, 0, fim - inicio);
    } else {
      var t := ts[0];
      BalanceGrows(l, k, inicio, t);
      CallSpendsOne(l, k, t);
      ScriptStaysSound(l, k, t);
      SpentIsBounded(l, ScriptSpec(l, k, t).0, ts[1..], t, fim);
      GainOfSpan(l, inicio, t, fim);
    }
  }

  /** In any stretch of T seconds, from whatever state the script left the key in and with expiries
      in between, at most burst + rate * T calls are allowed. */
  lemma TokenBucketBound(l: Limite, k: Chave, ts: seq<int>, inicio: int, fim: int)
    requires LimiteOk(l) && Sa(l, k) && Passada(k, inicio) && Cronologico(ts, inicio, fim)
    ensures Permitidos(l, k, ts) as real <= l.capacidade + Ganho(l, fim - inicio)
  {
    assert inicio <= inicio;
    BalanceGrows(l, k, inicio, inicio);
    SpentIsBounded(l, k, ts, inicio, fim);
  }

  /** The key after a run of calls. */
  function Estado(l: Limite, k: Chave, ts: seq<int>): Chave
    requires LimiteOk(l)
    decreases |ts|
  {
    if ts == [] then k else Estado(l, ScriptSpec(l, k, ts[0]).0, ts[1..])
  }

  /** One more call at time t would keep within burst + rate * T every stretch of the run that starts at
      one of its calls and ends at t. */
  predicate Cabe(l: Limite, k: Chave, ts: seq<int>, t: int)
    requires LimiteOk(l)
    decreases |ts|
  {
    ts == []
    || ((Permitidos(l, k, ts) + 1) as real <= l.capacidade + Ganho(l, t - ts[0])
        && Cabe(l, ScriptSpec(l, k, ts[0]).0, ts[1..], t))
  }

  lemma {:induction false} TokenLeftIff(l: Limite, k: Chave, ts: seq<int>, inicio: int, t: int)
    requires LimiteOk(l) && Sa(l, k) && Passada(k, inicio) && Cronologico(ts, inicio, t)
    ensures Saldo(l, Estado(l, k, ts), t) >= 1.0
            <==> (Permitidos(l, k, ts) + 1) as real <= Saldo(l, k, inicio) + Ganho(l, t - inicio) && Cabe(l, k, ts, t)
    decreases |ts|
  {
    if ts == [] {
      RefillLaw(l, k, inicio, t);
    } else {
      RefillLaw(l, k, inicio, ts[0]);
      CallSpendsOne(l, k, ts[0]);
      ScriptStaysSound(l, k, ts[0]);
      TokenLeftIff(l, ScriptSpec(l, k, ts[0]).0, ts[1..], ts[0], t);
      GainOfSpan(l, inicio, ts[0], t);
    }
  }

  /** On every run from a missing key, expiries included, a call is allowed exactly when no stretch of the
      run ending with it exceeds burst + rate * T. */
  lemma AllowedIff(l: Limite, ts: seq<int>, inicio: int, t: int)
    requires LimiteOk(l) && Cronologico(ts, inicio, t)
    ensures ScriptSpec(l, Estado(l, Nada, ts), t).1.permitido <==> Cabe(l, Nada, ts, t)
  {
    TokenLeftIff(l, Nada, ts, inicio, t);
    if Cabe(l, Nada, ts, t) {
      BurstCoversTheRun(l, ts, inicio, t);
    }
  }

  lemma BurstCoversTheRun(l: Limite, ts: seq<int>, inicio: int, t: int)
    requires LimiteOk(l) && Cronologico(ts, inicio, t) && Cabe(l, Nada, ts, t)
    ensures (Permitidos(l, Nada, ts) + 1) as real <= l.capacidade + Ganho(l, t - inicio)
  {
    LaterGainsMore(l, if ts == [] then 0 else t - ts[0], t - inicio);
  }
}
