/** The in-memory rate limiter (internal/adapters/http/middlewares/ratelimit.go).

    The clock is in nanoseconds, tokens are real numbers. */
module MemoryRateLimit {
  import opened Balde
  import opened Reais

  const SEGUNDO := 1_000_000_000

  datatype Bucket = Bucket(tokens: real, last: int)

  type Buckets = map<string, Bucket>

  datatype Resposta = Resposta(permitido: bool, espera: int)

  function Tokens(l: Limite, b: Bucket, now: int): real {
    Recarga(l, SEGUNDO as real, b.tokens, now - b.last)
  }

  /** time.Duration(x * float64(time.Second)) for x >= 0. */
  function Duracao(segundos: real): int {
    (segundos * SEGUNDO as real).Floor
  }

  function Cheio(maxKeys: int, bs: Buckets, key: string): bool {
    key !in bs && |bs| >= maxKeys
  }

  /** A request that is not turned away for lack of room. */
  function Atender(l: Limite, bs: Buckets, key: string, now: int): (Buckets, Resposta)
    requires LimiteOk(l)
  {
    var tokens := if key in bs then Tokens(l, bs[key], now) else l.capacidade;
    if tokens >= 1.0 then (bs[key := Bucket(tokens - 1.0, now)], Resposta(true, 0))
    else (bs[key := Bucket(tokens, now)], Resposta(false, Duracao((1.0 - tokens) / l.taxa)))
  }

  function AllowSpec(l: Limite, maxKeys: int, bs: Buckets, key: string, now: int): (Buckets, Resposta)
    requires LimiteOk(l)
  {
    if Cheio(maxKeys, bs, key) then (bs, Resposta(false, SEGUNDO)) else Atender(l, bs, key, now)
  }

  function Ocioso(l: Limite): int
    requires LimiteOk(l)
  {
    Duracao(l.capacidade / l.taxa) + 60 * SEGUNDO
  }

  function CleanupSpec(l: Limite, bs: Buckets, now: int): Buckets
    requires LimiteOk(l)
  {
    map k | k in bs && !(now - bs[k].last > Ocioso(l)) :: bs[k]
  }

  class MemoryRateLimiter {
    var buckets: Buckets
    const limite: Limite
    const maxKeys: int

    constructor (limite: Limite)
      ensures buckets == map[] && this.limite == limite && maxKeys == 100_000
    {
      buckets := map[];
      this.limite := limite;
      maxKeys := 100_000;
    }

    method Allow(key: string, now: int) returns (r: Resposta)
      requires LimiteOk(limite)
      modifies this
      ensures (buckets, r) == AllowSpec(limite, maxKeys, old(buckets), key, now)
    {
      RefillOfNew(limite, now);
      if key !in buckets {
        if |buckets| >= maxKeys {
          return Resposta(false, SEGUNDO);
        }
        buckets := buckets[key := Bucket(limite.capacidade, now)];
      }
      var b := buckets[key];
      b := b.(tokens := MinReal(limite.capacidade, b.tokens + (now - b.last) as real / SEGUNDO as real * limite.taxa));
      b := b.(last := now);
      if b.tokens >= 1.0 {
        b := b.(tokens := b.tokens - 1.0);
        buckets := buckets[key := b];
        assert buckets == old(buckets)[key := b];
        return Resposta(true, 0);
      }
      buckets := buckets[key := b];
      assert buckets == old(buckets)[key := b];
      return Resposta(false, Duracao((1.0 - b.tokens) / limite.taxa));
    }

    /** One tick of the clean-up loop. */
    method Cleanup(now: int)
      requires LimiteOk(limite)
      modifies this
      ensures buckets == CleanupSpec(limite, old(buckets), now)
    {
      var idle := Duracao(limite.capacidade / limite.taxa) + 60 * SEGUNDO;
      var restantes := buckets.Keys;
      var mantidos := buckets;
      while restantes != {}
        invariant restantes <= buckets.Keys && mantidos.Keys <= buckets.Keys
        invariant forall k :: k in mantidos ==> mantidos[k] == buckets[k]
        invariant forall k :: k in buckets ==>
                    (k in mantidos <==> k in restantes || !(now - buckets[k].last > idle))
        decreases restantes
      {
        var k :| k in restantes;
        if now - buckets[k].last > idle {
          mantidos := mantidos - {k};
        }
        restantes := restantes - {k};
      }
      buckets := mantidos;
    }
  }

  lemma RefillOfNew(l: Limite, now: int)
    requires LimiteOk(l)
    ensures Tokens(l, Bucket(l.capacidade, now), now) == l.capacidade
  {
    RefillBounds(l, SEGUNDO as real, l.capacidade, 0, 0);
  }

  // ----- runs -----

  datatype Evento = Pedido(key: string, t: int) | Limpeza(t: int)

  function Passo(l: Limite, maxKeys: int, bs: Buckets, e: Evento): Buckets
    requires LimiteOk(l)
  {
    match e
    case Pedido(key, t) => AllowSpec(l, maxKeys, bs, key, t).0
    case Limpeza(t) => CleanupSpec(l, bs, t)
  }

  predicate Permite(l: Limite, maxKeys: int, bs: Buckets, e: Evento)
    requires LimiteOk(l)
  {
    e.Pedido? && AllowSpec(l, maxKeys, bs, e.key, e.t).1.permitido
  }

  /** The clock never goes back and the run lies between `inicio` and `fim`. */
  predicate Cronologico(es: seq<Evento>, inicio: int, fim: int) {
    if es == [] then inicio <= fim else inicio <= es[0].t && Cronologico(es[1..], es[0].t, fim)
  }

  /** How many requests of one key a run lets through. */
  function Permitidos(l: Limite, maxKeys: int, bs: Buckets, es: seq<Evento>, key: string): nat
    requires LimiteOk(l)
    decreases |es|
  {
    if es == [] then 0
    else
      Gasto(l, maxKeys, bs, es[0], key) + Permitidos(l, maxKeys, Passo(l, maxKeys, bs, es[0]), es[1..], key)
  }

  predicate Sao(l: Limite, bs: Buckets, now: int) {
    forall k :: k in bs ==> 0.0 <= bs[k].tokens <= l.capacidade && bs[k].last <= now
  }

  /** The tokens a key can spend at time t: a key without a bucket starts full. */
  function Saldo(l: Limite, bs: Buckets, key: string, t: int): real {
    if key in bs then Tokens(l, bs[key], t) else l.capacidade
  }

  lemma BalanceBounds(l: Limite, bs: Buckets, key: string, a: int, b: int)
    requires LimiteOk(l) && Sao(l, bs, a) && a <= b
    ensures 0.0 <= Saldo(l, bs, key, a) && Saldo(l, bs, key, b) <= l.capacidade
    ensures Saldo(l, bs, key, b) <= Saldo(l, bs, key, a) + (b - a) as real / SEGUNDO as real * l.taxa
  {
    if key in bs {
      RefillBounds(l, SEGUNDO as real, bs[key].tokens, a - bs[key].last, b - bs[key].last);
    } else {
      GainIsMonotone(l, SEGUNDO as real, 0, b - a);
    }
  }

  lemma LongIdleIsFull(l: Limite, bs: Buckets, key: string, now: int, t: int)
    requires LimiteOk(l) && Sao(l, bs, now) && key in bs && now - bs[key].last > Ocioso(l) && now <= t
    ensures Tokens(l, bs[key], t) == l.capacidade
  {
    FullAfter(l, SEGUNDO as real, bs[key].tokens, t - bs[key].last);
  }

  /** Clean-up changes no key's balance, now or later. */
  lemma CleanupKeepsBalances(l: Limite, bs: Buckets, key: string, now: int, t: int)
    requires LimiteOk(l) && Sao(l, bs, now) && now <= t
    ensures Saldo(l, CleanupSpec(l, bs, now), key, t) == Saldo(l, bs, key, t)
    ensures Sao(l, CleanupSpec(l, bs, now), now)
  {
    if key in bs && now - bs[key].last > Ocioso(l) {
      LongIdleIsFull(l, bs, key, now, t);
    }
  }

  /** What a request does to the balances. */
  lemma RequestSpendsOne(l: Limite, maxKeys: int, bs: Buckets, e: Evento, key: string)
    requires LimiteOk(l) && e.Pedido? && Sao(l, bs, e.t)
    ensures Sao(l, Passo(l, maxKeys, bs, e), e.t)
    ensures Saldo(l, Passo(l, maxKeys, bs, e), key, e.t)
         == Saldo(l, bs, key, e.t) - if Permite(l, maxKeys, bs, e) && e.key == key then 1.0 else 0.0
  {
    var s := Saldo(l, bs, e.key, e.t);
    BalanceBounds(l, bs, e.key, e.t, e.t);
    if !Cheio(maxKeys, bs, e.key) {
      RefillBounds(l, SEGUNDO as real, if s >= 1.0 then s - 1.0 else s, 0, 0);
    }
  }

  /** What the rate adds in dt nanoseconds. */
  function Ganho(l: Limite, dt: int): real {
    dt as real / SEGUNDO as real * l.taxa
  }

  lemma BalanceGrows(l: Limite, bs: Buckets, key: string, a: int, b: int)
    requires LimiteOk(l) && Sao(l, bs, a) && a <= b
    ensures Saldo(l, bs, key, b) <= Saldo(l, bs, key, a) + Ganho(l, b - a)
  {
    BalanceBounds(l, bs, key, a, b);
  }

  /** Left alone, a key's balance grows by what the rate adds, up to the burst, whatever it starts from. */
  lemma RefillLaw(l: Limite, bs: Buckets, key: string, a: int, b: int)
    requires LimiteOk(l) && Sao(l, bs, a) && a <= b
    ensures Saldo(l, bs, key, b) == MinReal(l.capacidade, Saldo(l, bs, key, a) + Ganho(l, b - a))
  {
    if key in bs {
      RefillInTwo(l, SEGUNDO as real, bs[key].tokens, a - bs[key].last, b - bs[key].last);
    } else {
      GainIsMonotone(l, SEGUNDO as real, 0, b - a);
    }
  }

  function Gasto(l: Limite, maxKeys: int, bs: Buckets, e: Evento, key: string): nat
    requires LimiteOk(l)
  {
    if Permite(l, maxKeys, bs, e) && e.key == key then 1 else 0
  }

  lemma EventSpends(l: Limite, maxKeys: int, bs: Buckets, e: Evento, key: string)
    requires LimiteOk(l) && Sao(l, bs, e.t)
    ensures Sao(l, Passo(l, maxKeys, bs, e), e.t)
    ensures Saldo(l, Passo(l, maxKeys, bs, e), key, e.t)
         == Saldo(l, bs, key, e.t) - Gasto(l, maxKeys, bs, e, key) as real
  {
    if e.Pedido? {
      RequestSpendsOne(l, maxKeys, bs, e, key);
    } else {
      CleanupKeepsBalances(l, bs, key, e.t, e.t);
    }
  }

  lemma NoEvents(l: Limite, bs: Buckets, key: string, inicio: int, fim: int)
    requires LimiteOk(l) && Sao(l, bs, inicio) && inicio <= fim
    ensures 0.0 <= Saldo(l, bs, key, inicio) + Ganho(l, fim - inicio)
  {
    BalanceBounds(l, bs, key, inicio, fim);
    GainIsMonotone(l, SEGUNDO as real, 0, fim - inicio);
  }

  lemma LaterGainsMore(l: Limite, a: int, b: int)
    requires LimiteOk(l) && a <= b
    ensures Ganho(l, a) <= Ganho(l, b) && Ganho(l, 0) == 0.0
  {
    GainIsMonotone(l, SEGUNDO as real, a, b);
  }

  lemma GainOfSpan(l: Limite, a: int, b: int, c: int)
    ensures Ganho(l, c - a) == Ganho(l, b - a) + Ganho(l, c - b)
  {
    GainAdds(l, SEGUNDO as real, b - a, c - b);
    assert (b - a) + (c - b) == c - a;
  }

  lemma {:induction false} SpentIsBounded(l: Limite, maxKeys: int, bs: Buckets, es: seq<Evento>, key: string,
                                          inicio: int, fim: int)
    requires LimiteOk(l) && Sao(l, bs, inicio) && Cronologico(es, inicio, fim)
    ensures Permitidos(l, maxKeys, bs, es, key) as real <= Saldo(l, bs, key, inicio) + Ganho(l, fim - inicio)
    decreases |es|
  {
    if es == [] {
      NoEvents(l, bs, key, inicio, fim);
    } else {
      var e := es[0];
      BalanceGrows(l, bs, key, inicio, e.t);
      EventSpends(l, maxKeys, bs, e, key);
      SpentIsBounded(l, maxKeys, Passo(l, maxKeys, bs, e), es[1..], key, e.t, fim);
      GainOfSpan(l, inicio, e.t, fim);
    }
  }

  /** The buckets after a run. */
  function Estado(l: Limite, maxKeys: int, bs: Buckets, es: seq<Evento>): Buckets
    requires LimiteOk(l)
    decreases |es|
  {
    if es == [] then bs else Estado(l, maxKeys, Passo(l, maxKeys, bs, es[0]), es[1..])
  }

  lemma {:induction false} StatesStaySound(l: Limite, maxKeys: int, bs: Buckets, es: seq<Evento>, inicio: int, fim: int)
    requires LimiteOk(l) && Sao(l, bs, inicio) && Cronologico(es, inicio, fim)
    ensures Sao(l, Estado(l, maxKeys, bs, es), fim)
    decreases |es|
  {
    if es != [] {
      EventSpends(l, maxKeys, bs, es[0], "");
      StatesStaySound(l, maxKeys, Passo(l, maxKeys, bs, es[0]), es[1..], es[0].t, fim);
    }
  }

  lemma StretchBound(l: Limite, maxKeys: int, bs: Buckets, es: seq<Evento>, key: string, inicio: int, fim: int)
    requires LimiteOk(l) && Sao(l, bs, inicio) && Cronologico(es, inicio, fim)
    ensures Permitidos(l, maxKeys, bs, es, key) as real <= l.capacidade + Ganho(l, fim - inicio)
  {
    assert Saldo(l, bs, key, inicio) <= l.capacidade by {
      BalanceBounds(l, bs, key, inicio, inicio);
    }
    SpentIsBounded(l, maxKeys, bs, es, key, inicio, fim);
  }

  /** In any stretch of any run, clean-ups included, a key gets through at most burst + rate * T
      times, T being the length of the stretch in seconds. */
  lemma TokenBucketBound(l: Limite, maxKeys: int, antes: seq<Evento>, es: seq<Evento>, key: string,
                         zero: int, inicio: int, fim: int)
    requires LimiteOk(l) && Cronologico(antes, zero, inicio) && Cronologico(es, inicio, fim)
    ensures Permitidos(l, maxKeys, Estado(l, maxKeys, map[], antes), es, key) as real
            <= l.capacidade + Ganho(l, fim - inicio)
  {
    StatesStaySound(l, maxKeys, map[], antes, zero, inicio);
    StretchBound(l, maxKeys, Estado(l, maxKeys, map[], antes), es, key, inicio, fim);
  }

  /** One more request of the key at time t would keep within burst + rate * T every stretch of the run
      that starts at one of its events and ends at t. */
  predicate Cabe(l: Limite, maxKeys: int, bs: Buckets, es: seq<Evento>, key: string, t: int)
    requires LimiteOk(l)
    decreases |es|
  {
    es == []
    || ((Permitidos(l, maxKeys, bs, es, key) + 1) as real <= l.capacidade + Ganho(l, t - es[0].t)
        && Cabe(l, maxKeys, Passo(l, maxKeys, bs, es[0]), es[1..], key, t))
  }

  /** A token is left at the end exactly when the key's balance and the rate cover the run and one more
      request, and so does the burst from each event on. */
  lemma {:induction false} TokenLeftIff(l: Limite, maxKeys: int, bs: Buckets, es: seq<Evento>, key: string,
                                        inicio: int, t: int)
    requires LimiteOk(l) && Sao(l, bs, inicio) && Cronologico(es, inicio, t)
    ensures Saldo(l, Estado(l, maxKeys, bs, es), key, t) >= 1.0
            <==> (Permitidos(l, maxKeys, bs, es, key) + 1) as real <= Saldo(l, bs, key, inicio) + Ganho(l, t - inicio)
                 && Cabe(l, maxKeys, bs, es, key, t)
    decreases |es|
  {
    if es == [] {
      RefillLaw(l, bs, key, inicio, t);
    } else {
      var depois := AfterEvent(l, maxKeys, bs, es[0], key, inicio, t);
      TokenLeftIff(l, maxKeys, depois, es[1..], key, es[0].t, t);
    }
  }

  /** The balance an event leaves, seen from the time t: what was there and the rate, or the burst, less
      what the event spends. */
  lemma AfterEvent(l: Limite, maxKeys: int, bs: Buckets, e: Evento, key: string, inicio: int, t: int)
      returns (depois: Buckets)
    requires LimiteOk(l) && Sao(l, bs, inicio) && inicio <= e.t
    ensures depois == Passo(l, maxKeys, bs, e) && Sao(l, depois, e.t)
    ensures Saldo(l, depois, key, e.t) + Ganho(l, t - e.t) + Gasto(l, maxKeys, bs, e, key) as real
         == MinReal(l.capacidade + Ganho(l, t - e.t), Saldo(l, bs, key, inicio) + Ganho(l, t - inicio))
  {
    depois := Passo(l, maxKeys, bs, e);
    RefillLaw(l, bs, key, inicio, e.t);
    EventSpends(l, maxKeys, bs, e, key);
    GainOfSpan(l, inicio, e.t, t);
  }

  /** On every run from the empty table, a request is let through exactly when it finds room for its key
      and no stretch of the run ending with it exceeds burst + rate * T. Without room it is told to wait a
      second and leaves no trace. */
  lemma AllowedIff(l: Limite, maxKeys: int, es: seq<Evento>, key: string, inicio: int, t: int)
    requires LimiteOk(l) && Cronologico(es, inicio, t)
    ensures var bs := Estado(l, maxKeys, map[], es);
            Permite(l, maxKeys, bs, Pedido(key, t))
            <==> (key in bs || |bs| < maxKeys) && Cabe(l, maxKeys, map[], es, key, t)
    ensures var bs := Estado(l, maxKeys, map[], es);
            key !in bs && |bs| >= maxKeys ==>
              AllowSpec(l, maxKeys, bs, key, t) == (bs, Resposta(false, 1_000_000_000))
  {
    TokenLeftIff(l, maxKeys, map[], es, key, inicio, t);
    if Cabe(l, maxKeys, map[], es, key, t) {
      BurstCoversTheRun(l, maxKeys, es, key, inicio, t);
    }
  }

  lemma BurstCoversTheRun(l: Limite, maxKeys: int, es: seq<Evento>, key: string, inicio: int, t: int)
    requires LimiteOk(l) && Cronologico(es, inicio, t) && Cabe(l, maxKeys, map[], es, key, t)
    ensures (Permitidos(l, maxKeys, map[], es, key) + 1) as real <= l.capacidade + Ganho(l, t - inicio)
  {
    LaterGainsMore(l, if es == [] then 0 else t - es[0].t, t - inicio);
  }

  /** Clean-up keeps exactly the keys used in the last minute or in the time a bucket takes to fill before
      it, and keeps their buckets as they are. */
  lemma IdleKeysAreForgotten(l: Limite, bs: Buckets, key: string, now: int)
    requires LimiteOk(l)
    ensures key in CleanupSpec(l, bs, now)
            <==> key in bs && (now - bs[key].last - 60 * SEGUNDO) as real <= l.capacidade / l.taxa * SEGUNDO as real
    ensures key in CleanupSpec(l, bs, now) ==> CleanupSpec(l, bs, now)[key] == bs[key]
  {}

  /** The seconds a bucket of x tokens still needs to hold one, in nanoseconds. */
  function Falta(l: Limite, x: real): real
    requires LimiteOk(l)
  {
    (1.0 - x) / l.taxa * SEGUNDO as real
  }

  lemma FirstSecond(l: Limite, x: real)
    requires LimiteOk(l) && x < 1.0
    ensures Falta(l, x) > 0.0
  {
    DivideKeepsOrder(0.0, 1.0 - x, l.taxa);
    var q := (1.0 - x) / l.taxa;
    assert q * l.taxa == 1.0 - x;
    PositiveProduct(q, SEGUNDO as real);
  }

  /** After a refusal that found x tokens, the same key, left alone, is let through d nanoseconds
      later exactly when d covers (1 - x) / rate seconds. */
  lemma WaitAfterRefusal(l: Limite, bs: Buckets, key: string, now: int, d: nat)
    requires LimiteOk(l) && Sao(l, bs, now) && !Atender(l, bs, key, now).1.permitido
    ensures Atender(l, Atender(l, bs, key, now).0, key, now + d).1.permitido
            <==> d as real >= Falta(l, Saldo(l, bs, key, now))
  {
    BalanceBounds(l, bs, key, now, now);
    EnoughTime(l, SEGUNDO as real, Saldo(l, bs, key, now), d);
  }

  predicate Inteiro(x: real) {
    x.Floor as real == x
  }

  /** The wait returned is that time cut to whole nanoseconds: waiting just so long gets through if and
      only if it is a whole number of them. One nanosecond more always does, any less never. */
  lemma ReturnedWaitSufficesIff(l: Limite, bs: Buckets, key: string, now: int, d: nat)
    requires LimiteOk(l) && Sao(l, bs, now) && !Atender(l, bs, key, now).1.permitido
    ensures var (bs', r) := Atender(l, bs, key, now);
            && r.espera >= 0
            && (Atender(l, bs', key, now + r.espera).1.permitido <==> Inteiro(Falta(l, Saldo(l, bs, key, now))))
            && (d > r.espera ==> Atender(l, bs', key, now + d).1.permitido)
            && (d < r.espera ==> !Atender(l, bs', key, now + d).1.permitido)
  {
    var espera := Atender(l, bs, key, now).1.espera;
    FirstSecond(l, Saldo(l, bs, key, now));
    WaitAfterRefusal(l, bs, key, now, espera);
    WaitAfterRefusal(l, bs, key, now, d);
  }

  /** Three tokens a second, room for one: the second request of a key is told to wait 333333333
      nanoseconds, and asking again after just that long is refused. */
  lemma ReturnedWaitCanBeShort(key: string, now: int)
    ensures var l := Limite(3.0, 1.0);
            var (bs, r) := Atender(l, map[], key, now);
            var (bs', s) := Atender(l, bs, key, now);
            && r.permitido && s == Resposta(false, 333_333_333)
            && !Atender(l, bs', key, now + s.espera).1.permitido
  {
    var l := Limite(3.0, 1.0);
    var bs := Atender(l, map[], key, now).0;
    assert bs[key] == Bucket(0.0, now);
    assert Saldo(l, bs, key, now) == 0.0;
    var espera := Atender(l, bs, key, now).1.espera;
    assert espera == 333_333_333;
    WaitAfterRefusal(l, bs, key, now, espera);
  }

  // ----- clean-up and the key limit against a limiter that never forgets -----

  function Respostas(l: Limite, maxKeys: int, bs: Buckets, es: seq<Evento>): seq<Resposta>
    requires LimiteOk(l)
    decreases |es|
  {
    if es == [] then []
    else
      (if es[0].Pedido? then [AllowSpec(l, maxKeys, bs, es[0].key, es[0].t).1] else [])
      + Respostas(l, maxKeys, Passo(l, maxKeys, bs, es[0]), es[1..])
  }

  /** The limiter with no clean-up and no limit on keys. */
  function RespostasIdeais(l: Limite, bs: Buckets, es: seq<Evento>): seq<Resposta>
    requires LimiteOk(l)
    decreases |es|
  {
    if es == [] then []
    else if es[0].Limpeza? then RespostasIdeais(l, bs, es[1..])
    else
      var (bs', r) := Atender(l, bs, es[0].key, es[0].t);
      [r] + RespostasIdeais(l, bs', es[1..])
  }

  /** Some request of the run finds the table of keys full. */
  predicate Lota(l: Limite, maxKeys: int, bs: Buckets, es: seq<Evento>)
    requires LimiteOk(l)
    decreases |es|
  {
    es != []
    && ((es[0].Pedido? && Cheio(maxKeys, bs, es[0].key)) || Lota(l, maxKeys, Passo(l, maxKeys, bs, es[0]), es[1..]))
  }

  ghost predicate MesmosSaldos(l: Limite, a: Buckets, b: Buckets, now: int) {
    forall key: string, t: int :: t >= now ==> Saldo(l, a, key, t) == Saldo(l, b, key, t)
  }

  lemma SameBalancesSameAnswer(l: Limite, a: Buckets, b: Buckets, key: string, now: int)
    requires LimiteOk(l) && MesmosSaldos(l, a, b, now)
    ensures Atender(l, a, key, now).1 == Atender(l, b, key, now).1
    ensures MesmosSaldos(l, Atender(l, a, key, now).0, Atender(l, b, key, now).0, now)
  {
    var a', b' := Atender(l, a, key, now).0, Atender(l, b, key, now).0;
    assert Saldo(l, a, key, now) == Saldo(l, b, key, now);
    assert a'[key] == b'[key];
    forall k: string, t: int | t >= now
      ensures Saldo(l, a', k, t) == Saldo(l, b', k, t)
    {
      if k != key {
        assert Saldo(l, a', k, t) == Saldo(l, a, k, t);
        assert Saldo(l, b', k, t) == Saldo(l, b, k, t);
      }
    }
  }

  lemma CleanupKeepsSame(l: Limite, a: Buckets, b: Buckets, now: int)
    requires LimiteOk(l) && Sao(l, a, now) && MesmosSaldos(l, a, b, now)
    ensures MesmosSaldos(l, CleanupSpec(l, a, now), b, now)
  {
    forall k: string, t: int | t >= now
      ensures Saldo(l, CleanupSpec(l, a, now), k, t) == Saldo(l, b, k, t)
    {
      CleanupKeepsBalances(l, a, k, now, t);
    }
  }

  lemma {:induction false} EvictionFrom(l: Limite, maxKeys: int, a: Buckets, b: Buckets, es: seq<Evento>,
                                        inicio: int, fim: int)
    requires LimiteOk(l) && Sao(l, a, inicio) && MesmosSaldos(l, a, b, inicio) && Cronologico(es, inicio, fim)
    ensures Respostas(l, maxKeys, a, es) == RespostasIdeais(l, b, es) <==> !Lota(l, maxKeys, a, es)
    decreases |es|
  {
    if es != [] {
      var e := es[0];
      assert Sao(l, a, e.t) && MesmosSaldos(l, a, b, e.t);
      match e {
        case Limpeza(t) =>
          CleanupKeepsSame(l, a, b, t);
          CleanupKeepsBalances(l, a, "", t, t);
          EvictionFrom(l, maxKeys, CleanupSpec(l, a, t), b, es[1..], t, fim);
        case Pedido(key, t) =>
          SameBalancesSameAnswer(l, a, b, key, t);
          RequestSpendsOne(l, maxKeys, a, e, key);
          if !Cheio(maxKeys, a, key) {
            var a', b' := Atender(l, a, key, t).0, Atender(l, b, key, t).0;
            EvictionFrom(l, maxKeys, a', b', es[1..], t, fim);
            assert Respostas(l, maxKeys, a, es)[1..] == Respostas(l, maxKeys, a', es[1..]);
            assert RespostasIdeais(l, b, es)[1..] == RespostasIdeais(l, b', es[1..]);
          } else {
            assert Saldo(l, b, key, t) == Saldo(l, a, key, t) == l.capacidade;
            assert !Respostas(l, maxKeys, a, es)[0].permitido && RespostasIdeais(l, b, es)[0].permitido;
          }
      }
    }
  }

  /** Clean-up is invisible: the limiter answers a run as one that never forgets a key exactly when
      no request of the run finds the table of keys full. */
  lemma EvictionIsInvisible(l: Limite, maxKeys: int, es: seq<Evento>, inicio: int, fim: int)
    requires LimiteOk(l) && Cronologico(es, inicio, fim)
    ensures Respostas(l, maxKeys, map[], es) == RespostasIdeais(l, map[], es) <==> !Lota(l, maxKeys, map[], es)
  {
    EvictionFrom(l, maxKeys, map[], map[], es, inicio, fim);
  }

  /** A key of i letters. */
  function Chave(i: nat): string {
    seq(i, _ => 'a')
  }

  /** Requests at time t with the keys of i letters, i + 1 and so on up to n. */
  function PedidosDistintos(i: nat, n: nat, t: int): seq<Evento>
    decreases n - i
  {
    if i >= n then [] else [Pedido(Chave(i), t)] + PedidosDistintos(i + 1, n, t)
  }

  lemma {:induction false} KeysFillUp(l: Limite, maxKeys: nat, bs: Buckets, i: nat, t: int)
    requires LimiteOk(l) && i <= maxKeys && |bs| == i && forall k :: k in bs ==> |k| < i
    ensures Lota(l, maxKeys, bs, PedidosDistintos(i, maxKeys + 1, t))
    decreases maxKeys - i
  {
    var es := PedidosDistintos(i, maxKeys + 1, t);
    assert |Chave(i)| == i && es[0] == Pedido(Chave(i), t) && es[1..] == PedidosDistintos(i + 1, maxKeys + 1, t);
    if i < maxKeys {
      var b := Atender(l, bs, Chave(i), t).0;
      assert b.Keys == bs.Keys + {Chave(i)};
      assert |b| == |b.Keys| == i + 1;
      KeysFillUp(l, maxKeys, b, i + 1, t);
    }
  }

  /** maxKeys + 1 requests with distinct keys at one instant are enough to find the table full. */
  lemma LimiterFillsUp(l: Limite, maxKeys: nat, t: int)
    requires LimiteOk(l)
    ensures Lota(l, maxKeys, map[], PedidosDistintos(0, maxKeys + 1, t))
    ensures var es := PedidosDistintos(0, maxKeys + 1, t);
            Respostas(l, maxKeys, map[], es) != RespostasIdeais(l, map[], es)
  {
    KeysFillUp(l, maxKeys, map[], 0, t);
    AllAtOnce(0, maxKeys + 1, t);
    EvictionIsInvisible(l, maxKeys, PedidosDistintos(0, maxKeys + 1, t), t, t);
  }

  lemma {:induction false} AllAtOnce(i: nat, n: nat, t: int)
    ensures Cronologico(PedidosDistintos(i, n, t), t, t)
    decreases n - i
  {
    if i < n {
      AllAtOnce(i + 1, n, t);
      assert PedidosDistintos(i, n, t)[1..] == PedidosDistintos(i + 1, n, t);
    }
  }
}
