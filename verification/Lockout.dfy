/** Progressive login lockout: the policy (internal/core/domain/seguranca.go), the attempt store
    (internal/adapters/db/postgres/seguranca_store.go) and the login steps that use them
    (internal/core/services/auth_service.go). Times and durations are in nanoseconds; the keys stand
    for their hashes. */
module Lockout {
  import opened Comum

  const MINUTO := 60_000_000_000
  const HORA := 60 * MINUTO

  datatype Politica = Politica(livres: int, base: int, max: int, janela: int)

  const PADRAO := Politica(5, MINUTO, 30 * MINUTO, 24 * HORA)

  /** What the configuration demands of the four parameters. */
  predicate PoliticaOk(p: Politica) {
    p.livres >= 1 && p.base > 0 && p.max >= p.base && p.janela > 0
  }

  function Dobro(k: nat): int {
    if k == 0 then 1 else 2 * Dobro(k - 1)
  }

  /** min(MaxLock, BaseLock * 2^(failures - FreeAttempts - 1)) past the free attempts. */
  function Bloqueio(p: Politica, falhas: int): int {
    if falhas <= p.livres then 0
    else
      var d := p.base * Dobro(falhas - p.livres - 1);
      if d > p.max then p.max else d
  }

  lemma {:induction false} DoublesGrow(base: int, a: nat, b: nat)
    requires base > 0 && a <= b
    ensures 0 < base * Dobro(a) <= base * Dobro(b)
    decreases b
  {
    if a < b {
      DoublesGrow(base, a, b - 1);
      assert base * Dobro(b) == 2 * (base * Dobro(b - 1));
    } else if a > 0 {
      DoublesGrow(base, a - 1, b - 1);
      assert base * Dobro(b) == 2 * (base * Dobro(b - 1));
    }
  }

  /** The doubling loop computes the capped power of two. */
  method LockDuration(p: Politica, failures: int) returns (d: int)
    requires PoliticaOk(p)
    ensures d == Bloqueio(p, failures)
  {
    if failures <= p.livres {
      return 0;
    }
    d := p.base;
    var i := p.livres + 1;
    assert p.base * 1 == p.base;
    while i < failures
      invariant p.livres + 1 <= i <= failures
      invariant d == p.base * Dobro(i - p.livres - 1) && (i > p.livres + 1 ==> d < p.max)
    {
      assert p.base * Dobro(i - p.livres) == 2 * (p.base * Dobro(i - p.livres - 1));
      d := d * 2;
      i := i + 1;
      if d >= p.max {
        DoublesGrow(p.base, i - p.livres - 1, failures - p.livres - 1);
        return p.max;
      }
    }
    if d > p.max {
      return p.max;
    }
  }

  lemma LockIsPositive(p: Politica, falhas: int)
    requires PoliticaOk(p)
    ensures Bloqueio(p, falhas) >= 0 && (Bloqueio(p, falhas) > 0 <==> falhas > p.livres)
  {
    if falhas > p.livres {
      DoublesGrow(p.base, 0, falhas - p.livres - 1);
    }
  }

  /** The free attempts cost nothing, the next one the base lock, and each one more twice the lock before
      it, up to the longest. */
  lemma LocksDouble(p: Politica, falhas: int)
    requires PoliticaOk(p)
    ensures falhas <= p.livres ==> Bloqueio(p, falhas) == 0
    ensures falhas == p.livres + 1 ==> Bloqueio(p, falhas) == p.base
    ensures falhas > p.livres ==> Bloqueio(p, falhas + 1) == Min(p.max, 2 * Bloqueio(p, falhas))
  {
    if falhas > p.livres {
      var k := falhas - p.livres - 1;
      DoublesGrow(p.base, 0, k);
      assert p.base * Dobro(0) == p.base;
      assert p.base * Dobro(k + 1) == 2 * (p.base * Dobro(k));
    }
  }

  // ----- the attempt store -----

  datatype Registro = Registro(falhas: int, primeira: int, bloqueadoAte: Opcao<int>, atualizado: int)

  type Tabela = map<string, Registro>

  function Linha(t: Tabela, key: string): Opcao<Registro> {
    if key in t then Algo(t[key]) else Nada
  }

  /** The upsert of RegisterFailure on one row. */
  function ComFalha(r: Opcao<Registro>, now: int, janela: int): Registro {
    if r.Nada? || r.valor.primeira < now - janela then Registro(1, now, Nada, now)
    else Registro(r.valor.falhas + 1, r.valor.primeira, r.valor.bloqueadoAte, now)
  }

  predicate Velho(r: Registro, now: int, janela: int) {
    r.atualizado < now - janela && (r.bloqueadoAte.Nada? || r.bloqueadoAte.valor < now)
  }

  function DeleteStaleSpec(t: Tabela, now: int, janela: int): Tabela {
    map k | k in t && !Velho(t[k], now, janela) :: t[k]
  }

  class LoginAttemptStore {
    var linhas: Tabela

    constructor ()
      ensures linhas == map[]
    {
      linhas := map[];
    }

    /** Get: when the key is locked, until when. */
    method Get(key: string) returns (lockedUntil: Opcao<int>)
      ensures lockedUntil == if key in linhas then linhas[key].bloqueadoAte else Nada
    {
      lockedUntil := Nada;
      if key in linhas {
        lockedUntil := linhas[key].bloqueadoAte;
      }
    }

    method RegisterFailure(key: string, now: int, janela: int) returns (falhas: int)
      modifies this
      ensures linhas == old(linhas)[key := ComFalha(Linha(old(linhas), key), now, janela)]
      ensures falhas == linhas[key].falhas
    {
      if key !in linhas {
        linhas := linhas[key := Registro(1, now, Nada, now)];
      } else {
        var r := linhas[key];
        var reinicia := r.primeira < now - janela;
        linhas := linhas[key := Registro(if reinicia then 1 else r.falhas + 1, if reinicia then now else r.primeira,
                                         if reinicia then Nada else r.bloqueadoAte, now)];
      }
      falhas := linhas[key].falhas;
    }

    method Lock(key: string, until: int, now: int)
      modifies this
      ensures linhas == if key in old(linhas)
                        then old(linhas)[key := old(linhas)[key].(bloqueadoAte := Algo(until), atualizado := now)]
                        else old(linhas)
    {
      if key in linhas {
        linhas := linhas[key := linhas[key].(bloqueadoAte := Algo(until), atualizado := now)];
      }
    }

    method Reset(key: string)
      modifies this
      ensures linhas == old(linhas) - {key}
    {
      linhas := linhas - {key};
    }

    method DeleteStale(now: int, janela: int)
      modifies this
      ensures linhas == DeleteStaleSpec(old(linhas), now, janela)
    {
      linhas := map k | k in linhas && !Velho(linhas[k], now, janela) :: linhas[k];
    }
  }

  // ----- Login -----

  datatype Saida = Bloqueado(espera: int) | CredencialInvalida | BloqueioAplicado(espera: int) | Sucesso | ErroInterno

  predicate Trancada(r: Opcao<Registro>, now: int) {
    r.Algo? && r.valor.bloqueadoAte.Algo? && r.valor.bloqueadoAte.valor > now
  }

  /** One login attempt as seen by the row of its own key; `ok` says whether the password is right. */
  function LoginNaLinha(p: Politica, r: Opcao<Registro>, now: int, ok: bool): (Opcao<Registro>, Saida) {
    if Trancada(r, now) then (r, Bloqueado(r.valor.bloqueadoAte.valor - now))
    else if ok then (Nada, Sucesso)
    else
      var f := ComFalha(r, now, p.janela);
      var lock := Bloqueio(p, f.falhas);
      if lock <= 0 then (Algo(f), CredencialInvalida)
      else (Algo(f.(bloqueadoAte := Algo(now + lock))), BloqueioAplicado(lock))
  }

  function Gravar(t: Tabela, key: string, r: Opcao<Registro>): Tabela {
    if r.Algo? then t[key := r.valor] else t - {key}
  }

  function LoginSpec(p: Politica, t: Tabela, key: string, now: int, ok: bool): (Tabela, Saida) {
    if key == "" then (if ok then t - {key} else t, if ok then Sucesso else CredencialInvalida)
    else
      var (r, s) := LoginNaLinha(p, Linha(t, key), now, ok);
      (Gravar(t, key, r), s)
  }

  /** What checkCredentials finds: the right password, a wrong one, or an error of its own. */
  datatype Credencial = Certa | Errada | Indisponivel

  /** Which calls to the attempt store fail during one login; a failed call changes nothing. */
  datatype FalhasDaLoja = FalhasDaLoja(consultar: bool, registrar: bool, travar: bool, zerar: bool)

  function LoginNaLoja(p: Politica, t: Tabela, key: string, now: int, cred: Credencial, x: FalhasDaLoja)
    : (Tabela, Saida)
  {
    var r := Linha(t, key);
    if key != "" && !x.consultar && Trancada(r, now) then (t, Bloqueado(r.valor.bloqueadoAte.valor - now))
    else
      match cred
      case Indisponivel => (t, ErroInterno)
      case Certa => (if x.zerar then t else t - {key}, Sucesso)
      case Errada =>
        if key == "" || x.registrar then (t, CredencialInvalida)
        else
          var f := ComFalha(r, now, p.janela);
          var lock := Bloqueio(p, f.falhas);
          if lock <= 0 || x.travar then (t[key := f], CredencialInvalida)
          else (t[key := f.(bloqueadoAte := Algo(now + lock))], BloqueioAplicado(lock))
  }

  method Login(store: LoginAttemptStore, p: Politica, key: string, now: int, cred: Credencial, x: FalhasDaLoja)
    returns (s: Saida)
    requires PoliticaOk(p)
    modifies store
    ensures (store.linhas, s) == LoginNaLoja(p, old(store.linhas), key, now, cred, x)
  {
    if key != "" && !x.consultar {
      var lockedUntil := store.Get(key);
      if lockedUntil.Algo? && lockedUntil.valor > now {
        return Bloqueado(lockedUntil.valor - now);
      }
    }
    if cred == Indisponivel {
      return ErroInterno;
    }
    if cred == Errada {
      s := RegistrarFalha(store, p, key, now, x);
      return;
    }
    if !x.zerar {
      store.Reset(key);
    }
    return Sucesso;
  }

  /** registerFailure, and what Login answers after it. */
  method RegistrarFalha(store: LoginAttemptStore, p: Politica, key: string, now: int, x: FalhasDaLoja)
    returns (s: Saida)
    requires PoliticaOk(p)
    modifies store
    ensures (store.linhas, s) == LoginNaLoja(p, old(store.linhas), key, now, Errada, x.(consultar := true))
  {
    ghost var antes := store.linhas;
    if key == "" || x.registrar {
      return CredencialInvalida;
    }
    var failures := store.RegisterFailure(key, now, p.janela);
    var lock := LockDuration(p, failures);
    if lock <= 0 || x.travar {
      return CredencialInvalida;
    }
    store.Lock(key, now + lock, now);
    assert store.linhas == antes[key := store.linhas[key]];
    return BloqueioAplicado(lock);
  }

  const SEM_FALHAS := FalhasDaLoja(false, false, false, false)

  /** With a store that answers, a login is the step the runs below are made of. */
  lemma LoginWithoutStoreErrors(p: Politica, t: Tabela, key: string, now: int, ok: bool)
    ensures LoginNaLoja(p, t, key, now, if ok then Certa else Errada, SEM_FALHAS) == LoginSpec(p, t, key, now, ok)
  {
    if key != "" && Trancada(Linha(t, key), now) {
      assert t[key := t[key]] == t;
    }
  }

  /** A failing store never keeps the right password out: it is refused only while the key is locked
      and the store says so. */
  lemma RightPasswordGetsInIff(p: Politica, t: Tabela, key: string, now: int, x: FalhasDaLoja)
    ensures LoginNaLoja(p, t, key, now, Certa, x).1 == Sucesso
            <==> key == "" || x.consultar || !Trancada(Linha(t, key), now)
  {}

  /** The wait a login is told is exact: after just that long, or when the store cannot say, the right
      password gets in; any earlier, whatever the password, the key is still locked for the rest of it. */
  lemma WaitIsExact(p: Politica, t: Tabela, key: string, now: int, cred: Credencial, x: FalhasDaLoja,
                    d: nat, depois: Credencial, y: FalhasDaLoja)
    requires PoliticaOk(p)
    ensures var (t', s) := LoginNaLoja(p, t, key, now, cred, x);
            s.Bloqueado? || s.BloqueioAplicado? ==>
              && s.espera > 0
              && (LoginNaLoja(p, t', key, now + d, Certa, y).1 == Sucesso <==> y.consultar || d >= s.espera)
              && (d < s.espera && !y.consultar ==>
                    LoginNaLoja(p, t', key, now + d, depois, y) == (t', Bloqueado(s.espera - d)))
  {}

  /** A store call that fails, and credentials that could not be checked, change nothing. */
  lemma FailedCallsChangeNothing(p: Politica, t: Tabela, key: string, now: int, cred: Credencial, x: FalhasDaLoja)
    ensures var (t', s) := LoginNaLoja(p, t, key, now, cred, x);
            && (cred == Indisponivel ==> t' == t && (s == ErroInterno || s.Bloqueado?))
            && (cred == Errada && (x.registrar || key == "") ==> t' == t && (s == CredencialInvalida || s.Bloqueado?))
            && (cred == Certa && x.zerar ==> t' == t)
  {}

  /** Clean-up forgets exactly the keys with no failure or lock for a whole window whose lock is over. */
  lemma StaleRowsGo(t: Tabela, key: string, now: int, janela: int)
    ensures key in DeleteStaleSpec(t, now, janela)
            <==> key in t && (now - t[key].atualizado <= janela
                              || (t[key].bloqueadoAte.Algo? && t[key].bloqueadoAte.valor >= now))
    ensures key in DeleteStaleSpec(t, now, janela) ==> DeleteStaleSpec(t, now, janela)[key] == t[key]
  {}

  /** A success the store records leaves nothing of the key's failures. */
  lemma SuccessForgets(p: Politica, t: Tabela, key: string, now: int, x: FalhasDaLoja)
    ensures var (t', s) := LoginNaLoja(p, t, key, now, Certa, x);
            s == Sucesso && !x.zerar ==> t' == t - {key}
  {}

  /** The table after wrong passwords for one key at the times ts. */
  function AposFalhas(p: Politica, t: Tabela, key: string, ts: seq<int>): Tabela {
    if ts == [] then t else LoginSpec(p, AposFalhas(p, t, key, ts[..|ts| - 1]), key, ts[|ts| - 1], false).0
  }

  /** Each time is past the lock of the failures before it. */
  predicate CadaUmaEspera(p: Politica, ts: seq<int>) {
    |ts| <= 1 || (ts[|ts| - 1] >= ts[|ts| - 2] + Bloqueio(p, |ts| - 1) && CadaUmaEspera(p, ts[..|ts| - 1]))
  }

  lemma {:induction false} ConsecutiveFailures(p: Politica, t: Tabela, key: string, ts: seq<int>)
    requires PoliticaOk(p) && key != "" && key !in t && ts != []
    requires CadaUmaEspera(p, ts) && ts[|ts| - 1] - ts[0] <= p.janela
    ensures var n, ultima := |ts|, ts[|ts| - 1];
            && ts[0] <= ultima
            && Linha(AposFalhas(p, t, key, ts), key)
               == Algo(Registro(n, ts[0], if n > p.livres then Algo(ultima + Bloqueio(p, n)) else Nada, ultima))
  {
    var n := |ts|;
    LockIsPositive(p, n);
    if n > 1 {
      LockIsPositive(p, n - 1);
      ConsecutiveFailures(p, t, key, ts[..n - 1]);
    }
  }

  /** The n-th wrong password in one window, each tried once the last lock is over, is answered with the
      lock for n failures, none within the free attempts; one after the window counts as the first. */
  lemma NthFailure(p: Politica, t: Tabela, key: string, ts: seq<int>, now: int)
    requires PoliticaOk(p) && key != "" && key !in t && ts != [] && CadaUmaEspera(p, ts + [now])
    requires ts[|ts| - 1] - ts[0] <= p.janela
    ensures var n := if now - ts[0] <= p.janela then |ts| + 1 else 1;
            LoginSpec(p, AposFalhas(p, t, key, ts), key, now, false).1
            == if n <= p.livres then CredencialInvalida else BloqueioAplicado(Bloqueio(p, n))
  {
    assert (ts + [now])[..|ts|] == ts;
    ConsecutiveFailures(p, t, key, ts);
    NextFailure(p, Linha(AposFalhas(p, t, key, ts), key).valor, now);
  }

  lemma NextFailure(p: Politica, r: Registro, now: int)
    requires PoliticaOk(p) && !Trancada(Algo(r), now)
    ensures var n := if now - r.primeira <= p.janela then r.falhas + 1 else 1;
            LoginNaLinha(p, Algo(r), now, false).1
            == if n <= p.livres then CredencialInvalida else BloqueioAplicado(Bloqueio(p, n))
  {
    LockIsPositive(p, if now - r.primeira <= p.janela then r.falhas + 1 else 1);
  }

  // ----- what every row keeps -----

  /** The locks a run of `falhas` failures has had to sit out. */
  function SomaBloqueios(p: Politica, falhas: int): int {
    if falhas <= 1 then 0 else SomaBloqueios(p, falhas - 1) + Bloqueio(p, falhas - 1)
  }

  /** f failures took at least the sum of the first f - 1 locks and fall within one window; the row
      is locked for the f-th one's lock. */
  predicate Coerente(p: Politica, r: Registro, now: int) {
    && r.falhas >= 1 && r.primeira <= r.atualizado <= now
    && SomaBloqueios(p, r.falhas) <= r.atualizado - r.primeira <= p.janela
    && r.bloqueadoAte == if Bloqueio(p, r.falhas) > 0 then Algo(r.atualizado + Bloqueio(p, r.falhas)) else Nada
  }

  predicate LinhaCoerente(p: Politica, r: Opcao<Registro>, now: int) {
    r.Algo? ==> Coerente(p, r.valor, now)
  }

  lemma LoginKeepsRowCoherent(p: Politica, r: Opcao<Registro>, antes: int, now: int, ok: bool)
    requires PoliticaOk(p) && LinhaCoerente(p, r, antes) && antes <= now
    ensures LinhaCoerente(p, LoginNaLinha(p, r, now, ok).0, now)
  {
    LockIsPositive(p, 1);
    if r.Algo? {
      LockIsPositive(p, r.valor.falhas);
      LockIsPositive(p, r.valor.falhas + 1);
    }
  }

  // ----- runs -----

  datatype Evento = Tentativa(key: string, t: int, ok: bool) | Limpeza(t: int)

  function Passo(p: Politica, t: Tabela, e: Evento): Tabela {
    match e
    case Tentativa(key, now, ok) => LoginSpec(p, t, key, now, ok).0
    case Limpeza(now) => DeleteStaleSpec(t, now, p.janela)
  }

  function Estado(p: Politica, t: Tabela, es: seq<Evento>): Tabela
    decreases |es|
  {
    if es == [] then t else Estado(p, Passo(p, t, es[0]), es[1..])
  }

  predicate Cronologico(es: seq<Evento>, inicio: int, fim: int) {
    if es == [] then inicio <= fim else inicio <= es[0].t && Cronologico(es[1..], es[0].t, fim)
  }

  /** The same event as seen by the row of one key. */
  function PassoDaLinha(p: Politica, r: Opcao<Registro>, key: string, e: Evento): Opcao<Registro> {
    match e
    case Tentativa(k, now, ok) => if k == key && k != "" then LoginNaLinha(p, r, now, ok).0 else r
    case Limpeza(now) => if r.Algo? && Velho(r.valor, now, p.janela) then Nada else r
  }

  lemma RowsAreIndependent(p: Politica, t: Tabela, key: string, e: Evento)
    requires key != ""
    ensures Linha(Passo(p, t, e), key) == PassoDaLinha(p, Linha(t, key), key, e)
  {
  }

  lemma StepKeepsRowCoherent(p: Politica, r: Opcao<Registro>, key: string, e: Evento, antes: int)
    requires PoliticaOk(p) && LinhaCoerente(p, r, antes) && antes <= e.t
    ensures LinhaCoerente(p, PassoDaLinha(p, r, key, e), e.t)
  {
    if e.Tentativa? {
      LoginKeepsRowCoherent(p, r, antes, e.t, e.ok);
    }
  }

  /** Over any run, a key with f failures on record has taken, from its first to its latest failure,
      at least the sum of the locks for 1 to f - 1 failures, and at most one counting window. */
  lemma {:induction false} FailuresTakeTime(p: Politica, t: Tabela, es: seq<Evento>, key: string, inicio: int, fim: int)
    requires PoliticaOk(p) && key != "" && Cronologico(es, inicio, fim) && LinhaCoerente(p, Linha(t, key), inicio)
    ensures LinhaCoerente(p, Linha(Estado(p, t, es), key), fim)
    decreases |es|
  {
    if es != [] {
      RowsAreIndependent(p, t, key, es[0]);
      StepKeepsRowCoherent(p, Linha(t, key), key, es[0], inicio);
      FailuresTakeTime(p, Passo(p, t, es[0]), es[1..], key, es[0].t, fim);
    }
  }

  /** No window has room for more than n failures. */
  predicate NoMaximo(p: Politica, n: int) {
    n >= 1 && SomaBloqueios(p, n + 1) > p.janela
  }

  lemma {:induction false} LocksAddUp(p: Politica, a: int, b: int)
    requires PoliticaOk(p) && a <= b
    ensures SomaBloqueios(p, a) <= SomaBloqueios(p, b)
    decreases b - a
  {
    if a < b {
      LocksAddUp(p, a, b - 1);
      LockIsPositive(p, b - 1);
    }
  }

  lemma CountIsBounded(p: Politica, r: Registro, now: int, n: int)
    requires PoliticaOk(p) && Coerente(p, r, now) && NoMaximo(p, n)
    ensures r.falhas <= n
  {
    if r.falhas > n {
      LocksAddUp(p, n + 1, r.falhas);
    }
  }

  lemma {:induction false} DefaultLocks(f: int)
    requires f >= 11
    ensures Bloqueio(PADRAO, f) == 30 * MINUTO
    ensures SomaBloqueios(PADRAO, f) == (31 + 30 * (f - 11)) * MINUTO
  {
    if f == 11 {
      assert Dobro(4) == 16;
      assert Dobro(5) == 32;
      FirstDefaultLocks();
    } else {
      DefaultLocks(f - 1);
      DoublesGrow(MINUTO, 5, f - 6);
      assert Dobro(5) == 32;
    }
  }

  lemma FirstDefaultLocks()
    ensures SomaBloqueios(PADRAO, 11) == 31 * MINUTO
  {
    assert Dobro(2) == 4 && Dobro(3) == 8 && Dobro(4) == 16;
    assert SomaBloqueios(PADRAO, 2) == 0;
    assert SomaBloqueios(PADRAO, 4) == 0;
    assert SomaBloqueios(PADRAO, 6) == 0;
    assert SomaBloqueios(PADRAO, 7) == MINUTO;
    assert SomaBloqueios(PADRAO, 9) == 7 * MINUTO;
  }

  /** With the default policy a counting window of 24 hours holds at most 57 failures. */
  lemma DefaultLimit()
    ensures NoMaximo(PADRAO, 57) && !NoMaximo(PADRAO, 56)
  {
    DefaultLocks(58);
    DefaultLocks(57);
  }

  // ----- wrong checks in any stretch of time -----

  /** An attempt on the key that gets past the lock and fails. */
  predicate FalhaDe(t: Tabela, key: string, e: Evento) {
    e.Tentativa? && e.key == key && !e.ok && !Trancada(Linha(t, key), e.t)
  }

  function Falhas(p: Politica, t: Tabela, es: seq<Evento>, key: string): nat
    decreases |es|
  {
    if es == [] then 0
    else (if FalhaDe(t, key, es[0]) then 1 else 0) + Falhas(p, Passo(p, t, es[0]), es[1..], key)
  }

  predicate SemSucesso(es: seq<Evento>, key: string) {
    forall i :: 0 <= i < |es| ==> !(es[i].Tentativa? && es[i].key == key && es[i].ok)
  }

  /** Where a stretch that began at `inicio` stands: `velhas` failures added to a count that began
      before it, then `novas` in a count begun inside it; every lock in between was sat out. */
  predicate Andamento(p: Politica, r: Opcao<Registro>, inicio: int, velhas: nat, novas: nat) {
    if novas > 0 then
      && r.Algo? && r.valor.falhas == novas && inicio <= r.valor.primeira
      && r.valor.atualizado >= inicio + SomaBloqueios(p, velhas + 2) + SomaBloqueios(p, novas)
    else
      && (velhas > 0 ==> r.Algo? && r.valor.atualizado >= inicio + SomaBloqueios(p, velhas + 1)
                         && r.valor.falhas > velhas)
      && (r.Algo? ==> r.valor.primeira < inicio)
  }

  predicate ContaFalha(r: Opcao<Registro>, key: string, e: Evento) {
    e.Tentativa? && e.key == key && !e.ok && !Trancada(r, e.t)
  }

  lemma LocksGrow(p: Politica, a: int, b: int)
    requires PoliticaOk(p) && a <= b
    ensures Bloqueio(p, a) <= Bloqueio(p, b)
  {
    LockIsPositive(p, b);
    if a > p.livres {
      DoublesGrow(p.base, a - p.livres - 1, b - p.livres - 1);
    }
  }

  lemma FreeAttempts(p: Politica)
    requires PoliticaOk(p)
    ensures SomaBloqueios(p, 0) == SomaBloqueios(p, 1) == SomaBloqueios(p, 2) == 0
  {}

  lemma NothingCounted(p: Politica, r: Opcao<Registro>, key: string, e: Evento, inicio: int, antes: int,
                       velhas: nat, novas: nat)
    requires PoliticaOk(p) && LinhaCoerente(p, r, antes) && Andamento(p, r, inicio, velhas, novas)
    requires key != "" && inicio <= antes <= e.t <= inicio + p.janela
    requires !(e.Tentativa? && e.key == key && e.ok) && !ContaFalha(r, key, e)
    ensures Andamento(p, PassoDaLinha(p, r, key, e), inicio, velhas, novas)
  {
    LocksAddUp(p, 0, velhas + 1);
    LocksAddUp(p, 0, velhas + 2);
    LocksAddUp(p, 0, novas);
  }

  /** A failed check goes to the old count while that one lasts, and to the new one from then on. */
  lemma FailureCounted(p: Politica, r: Opcao<Registro>, key: string, e: Evento, inicio: int, antes: int,
                       velhas: nat, novas: nat) returns (velha: bool)
    requires PoliticaOk(p) && LinhaCoerente(p, r, antes) && Andamento(p, r, inicio, velhas, novas)
    requires key != "" && inicio <= antes <= e.t <= inicio + p.janela && ContaFalha(r, key, e)
    ensures velha ==> novas == 0
    ensures Andamento(p, PassoDaLinha(p, r, key, e), inicio, if velha then velhas + 1 else velhas,
                      if velha then novas else novas + 1)
  {
    FreeAttempts(p);
    velha := novas == 0 && r.Algo? && r.valor.primeira >= e.t - p.janela;
    if r.Algo? {
      LockIsPositive(p, r.valor.falhas);
      if novas == 0 && velhas > 0 {
        LocksGrow(p, velhas + 1, r.valor.falhas);
      }
    }
  }

  lemma {:induction false} FailuresFit(p: Politica, t: Tabela, es: seq<Evento>, key: string, inicio: int, antes: int,
                                       fim: int, velhas: nat, novas: nat) returns (v: nat, n: nat)
    requires PoliticaOk(p) && key != "" && LinhaCoerente(p, Linha(t, key), antes)
    requires Andamento(p, Linha(t, key), inicio, velhas, novas)
    requires inicio <= antes && Cronologico(es, antes, fim) && fim <= inicio + p.janela && SemSucesso(es, key)
    ensures Falhas(p, t, es, key) + velhas + novas == v + n
    ensures SomaBloqueios(p, v + 2) + SomaBloqueios(p, n) <= p.janela
    decreases |es|
  {
    if es == [] {
      v, n := LastCounts(p, Linha(t, key), inicio, antes, velhas, novas);
    } else {
      var e := es[0];
      EventsInside(es, antes, fim);
      RowsAreIndependent(p, t, key, e);
      StepKeepsRowCoherent(p, Linha(t, key), key, e, antes);
      LaterSuccesses(es, key);
      if FalhaDe(t, key, e) {
        var velha := FailureCounted(p, Linha(t, key), key, e, inicio, antes, velhas, novas);
        if velha {
          v, n := FailuresFit(p, Passo(p, t, e), es[1..], key, inicio, e.t, fim, velhas + 1, novas);
        } else {
          v, n := FailuresFit(p, Passo(p, t, e), es[1..], key, inicio, e.t, fim, velhas, novas + 1);
        }
      } else {
        NothingCounted(p, Linha(t, key), key, e, inicio, antes, velhas, novas);
        v, n := FailuresFit(p, Passo(p, t, e), es[1..], key, inicio, e.t, fim, velhas, novas);
      }
    }
  }

  lemma LaterSuccesses(es: seq<Evento>, key: string)
    requires es != [] && SemSucesso(es, key)
    ensures SemSucesso(es[1..], key)
  {
    forall i | 0 <= i < |es| - 1
      ensures !(es[1..][i].Tentativa? && es[1..][i].key == key && es[1..][i].ok)
    {
      assert es[1..][i] == es[i + 1];
    }
  }

  lemma LastCounts(p: Politica, r: Opcao<Registro>, inicio: int, agora: int, velhas: nat, novas: nat)
    returns (v: nat, n: nat)
    requires PoliticaOk(p) && LinhaCoerente(p, r, agora) && Andamento(p, r, inicio, velhas, novas)
    requires inicio <= agora <= inicio + p.janela
    ensures v + n == velhas + novas && SomaBloqueios(p, v + 2) + SomaBloqueios(p, n) <= p.janela
  {
    FreeAttempts(p);
    if novas == 0 && velhas > 0 {
      v, n := velhas - 1, 1;
    } else {
      v, n := velhas, novas;
    }
  }

  lemma {:induction false} EventsInside(es: seq<Evento>, inicio: int, fim: int)
    requires Cronologico(es, inicio, fim)
    ensures inicio <= fim && (es != [] ==> inicio <= es[0].t <= fim)
    decreases |es|
  {
    if es != [] {
      EventsInside(es[1..], es[0].t, fim);
    }
  }

  lemma StretchBegins(p: Politica, r: Opcao<Registro>, inicio: int) returns (novas: nat)
    requires PoliticaOk(p) && LinhaCoerente(p, r, inicio)
    ensures Andamento(p, r, inicio, 0, novas)
  {
    FreeAttempts(p);
    novas := if r.Algo? && r.valor.primeira >= inicio then r.valor.falhas else 0;
  }

  /** In any stretch no longer than a window, after any run and with clean-ups in between, the wrong
      passwords checked for a key that does not log in are v + n for some v and n such that the locks
      of v + 2 failures and those of n together fit in one window: v that end an earlier count and n
      that make a new one. */
  lemma WrongChecksAreBounded(p: Politica, antes: seq<Evento>, es: seq<Evento>, key: string,
                              zero: int, inicio: int, fim: int) returns (v: nat, n: nat)
    requires PoliticaOk(p) && key != "" && SemSucesso(es, key)
    requires Cronologico(antes, zero, inicio) && Cronologico(es, inicio, fim) && fim <= inicio + p.janela
    ensures Falhas(p, Estado(p, map[], antes), es, key) <= v + n
    ensures SomaBloqueios(p, v + 2) + SomaBloqueios(p, n) <= p.janela
  {
    FailuresTakeTime(p, map[], antes, key, zero, inicio);
    var novas := StretchBegins(p, Linha(Estado(p, map[], antes), key), inicio);
    v, n := FailuresFit(p, Estado(p, map[], antes), es, key, inicio, inicio, fim, 0, novas);
  }

  lemma DefaultLocksAtLeast(f: nat)
    ensures SomaBloqueios(PADRAO, f) >= (30 * f - 299) * MINUTO
  {
    if f >= 11 {
      DefaultLocks(f);
    } else {
      LocksAddUp(PADRAO, 0, f);
      if f == 10 {
        FirstDefaultLocks();
        assert Dobro(4) == 16;
        assert SomaBloqueios(PADRAO, 11) == SomaBloqueios(PADRAO, 10) + Bloqueio(PADRAO, 10);
      }
    }
  }

  /** With the default policy, 65 wrong passwords at most in any 24 hours. */
  lemma DefaultWrongChecks(antes: seq<Evento>, es: seq<Evento>, key: string, zero: int, inicio: int, fim: int)
    requires key != "" && SemSucesso(es, key)
    requires Cronologico(antes, zero, inicio) && Cronologico(es, inicio, fim) && fim <= inicio + 24 * HORA
    ensures Falhas(PADRAO, Estado(PADRAO, map[], antes), es, key) <= 65
  {
    var v, n := WrongChecksAreBounded(PADRAO, antes, es, key, zero, inicio, fim);
    DefaultLocksAtLeast(v + 2);
    DefaultLocksAtLeast(n);
  }

  // ----- clean-up against a store that keeps everything -----

  function Saidas(p: Politica, t: Tabela, es: seq<Evento>, comLimpeza: bool): seq<Saida>
    decreases |es|
  {
    if es == [] then []
    else
      match es[0]
      case Tentativa(key, now, ok) =>
        [LoginSpec(p, t, key, now, ok).1] + Saidas(p, LoginSpec(p, t, key, now, ok).0, es[1..], comLimpeza)
      case Limpeza(now) =>
        Saidas(p, if comLimpeza then DeleteStaleSpec(t, now, p.janela) else t, es[1..], comLimpeza)
  }

  /** Equal, or forgotten where the other row no longer matters. */
  predicate Equivalentes(p: Politica, a: Opcao<Registro>, b: Opcao<Registro>, now: int) {
    a == b
    || (a.Nada? && b.Algo? && b.valor.primeira < now - p.janela
        && (b.valor.bloqueadoAte.Nada? || b.valor.bloqueadoAte.valor <= now))
  }

  ghost predicate TabelasEquivalentes(p: Politica, a: Tabela, b: Tabela, now: int) {
    forall k: string :: Equivalentes(p, Linha(a, k), Linha(b, k), now)
  }

  lemma LoginCannotTell(p: Politica, a: Tabela, b: Tabela, key: string, now: int, ok: bool)
    requires TabelasEquivalentes(p, a, b, now)
    ensures LoginSpec(p, a, key, now, ok).1 == LoginSpec(p, b, key, now, ok).1
    ensures TabelasEquivalentes(p, LoginSpec(p, a, key, now, ok).0, LoginSpec(p, b, key, now, ok).0, now)
  {
    assert Equivalentes(p, Linha(a, key), Linha(b, key), now);
    var a', b' := LoginSpec(p, a, key, now, ok).0, LoginSpec(p, b, key, now, ok).0;
    forall k: string
      ensures Equivalentes(p, Linha(a', k), Linha(b', k), now)
    {
      assert Equivalentes(p, Linha(a, k), Linha(b, k), now);
    }
  }

  lemma CleanupCannotBeTold(p: Politica, a: Tabela, b: Tabela, antes: int, now: int)
    requires TabelasEquivalentes(p, a, b, antes) && antes <= now
    requires forall k: string :: LinhaCoerente(p, Linha(a, k), antes)
    ensures TabelasEquivalentes(p, DeleteStaleSpec(a, now, p.janela), b, now)
  {
    forall k: string
      ensures Equivalentes(p, Linha(DeleteStaleSpec(a, now, p.janela), k), Linha(b, k), now)
    {
      assert Equivalentes(p, Linha(a, k), Linha(b, k), antes);
      assert LinhaCoerente(p, Linha(a, k), antes);
    }
  }

  ghost predicate TabelaCoerente(p: Politica, t: Tabela, now: int) {
    forall k: string :: LinhaCoerente(p, Linha(t, k), now)
  }

  lemma StepKeepsTableCoherent(p: Politica, t: Tabela, e: Evento, antes: int)
    requires PoliticaOk(p) && TabelaCoerente(p, t, antes) && antes <= e.t
    ensures TabelaCoerente(p, Passo(p, t, e), e.t)
  {
    forall k: string
      ensures LinhaCoerente(p, Linha(Passo(p, t, e), k), e.t)
    {
      assert LinhaCoerente(p, Linha(t, k), antes);
      if k != "" {
        RowsAreIndependent(p, t, k, e);
        StepKeepsRowCoherent(p, Linha(t, k), k, e, antes);
      }
    }
  }

  lemma {:induction false} CleanupIsInvisibleFrom(p: Politica, a: Tabela, b: Tabela, es: seq<Evento>,
                                                  inicio: int, fim: int)
    requires PoliticaOk(p) && TabelaCoerente(p, a, inicio) && TabelasEquivalentes(p, a, b, inicio)
    requires Cronologico(es, inicio, fim)
    ensures Saidas(p, a, es, true) == Saidas(p, b, es, false)
    decreases |es|
  {
    if es != [] {
      var e := es[0];
      StepKeepsTableCoherent(p, a, e, inicio);
      match e {
        case Tentativa(key, now, ok) =>
          StillEquivalent(p, a, b, inicio, now);
          LoginCannotTell(p, a, b, key, now, ok);
          CleanupIsInvisibleFrom(p, LoginSpec(p, a, key, now, ok).0, LoginSpec(p, b, key, now, ok).0, es[1..], now,
                                 fim);
        case Limpeza(now) =>
          CleanupCannotBeTold(p, a, b, inicio, now);
          CleanupIsInvisibleFrom(p, DeleteStaleSpec(a, now, p.janela), b, es[1..], now, fim);
      }
    }
  }

  lemma StillEquivalent(p: Politica, a: Tabela, b: Tabela, antes: int, now: int)
    requires TabelasEquivalentes(p, a, b, antes) && antes <= now
    ensures TabelasEquivalentes(p, a, b, now)
  {
    forall k: string ensures Equivalentes(p, Linha(a, k), Linha(b, k), now) {
      assert Equivalentes(p, Linha(a, k), Linha(b, k), antes);
    }
  }

  /** Running DeleteStale, however often, never changes the outcome of any login. */
  lemma CleanupIsInvisible(p: Politica, es: seq<Evento>, inicio: int, fim: int)
    requires PoliticaOk(p) && Cronologico(es, inicio, fim)
    ensures Saidas(p, map[], es, true) == Saidas(p, map[], es, false)
  {
    CleanupIsInvisibleFrom(p, map[], map[], es, inicio, fim);
  }
}
