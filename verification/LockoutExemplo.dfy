/** How many wrong passwords the default policy does let through in 24 hours. */
module LockoutExemplo {
  import opened Comum
  import opened Lockout

  /** k wrong passwords, each as soon as the lock of the one before, the f-th at time t, is over. */
  function Insistir(p: Politica, key: string, f: int, t: int, k: nat): seq<Evento>
    decreases k
  {
    if k == 0 then []
    else [Tentativa(key, t + Bloqueio(p, f), false)] + Insistir(p, key, f + 1, t + Bloqueio(p, f), k - 1)
  }

  /** The row of f failures, the first at `primeira` and the last at t. */
  function Contadas(p: Politica, f: int, primeira: int, t: int): Registro {
    Registro(f, primeira, if Bloqueio(p, f) > 0 then Algo(t + Bloqueio(p, f)) else Nada, t)
  }

  /** One more wrong password at time now, no earlier than the end of the lock. */
  lemma OneMore(p: Politica, t: Tabela, key: string, f: int, primeira: int, antes: int, now: int)
    requires PoliticaOk(p) && key != "" && f >= 1 && Linha(t, key) == Algo(Contadas(p, f, primeira, antes))
    requires now >= antes + Bloqueio(p, f)
    ensures FalhaDe(t, key, Tentativa(key, now, false))
    ensures var r := if primeira < now - p.janela then Contadas(p, 1, now, now) else Contadas(p, f + 1, primeira, now);
            Linha(Passo(p, t, Tentativa(key, now, false)), key) == Algo(r)
  {
    LockIsPositive(p, f);
    LockIsPositive(p, f + 1);
    LockIsPositive(p, 1);
    RowsAreIndependent(p, t, key, Tentativa(key, now, false));
  }

  /** The count goes on as long as it fits its window, and every attempt is checked. */
  lemma {:induction false} AllAreChecked(p: Politica, t: Tabela, key: string, f: int, primeira: int, antes: int, k: nat)
    requires PoliticaOk(p) && key != "" && f >= 1 && Linha(t, key) == Algo(Contadas(p, f, primeira, antes))
    requires antes + SomaBloqueios(p, f + k) - SomaBloqueios(p, f) <= primeira + p.janela
    ensures var es, fim := Insistir(p, key, f, antes, k), antes + SomaBloqueios(p, f + k) - SomaBloqueios(p, f);
            && Falhas(p, t, es, key) == k && Cronologico(es, antes, fim) && SemSucesso(es, key)
            && Linha(Estado(p, t, es), key) == Algo(Contadas(p, f + k, primeira, fim))
    decreases k
  {
    if k > 0 {
      var now := antes + Bloqueio(p, f);
      var e := Tentativa(key, now, false);
      LockIsPositive(p, f);
      LocksAddUp(p, f + 1, f + k);
      assert SomaBloqueios(p, f + 1) == SomaBloqueios(p, f) + Bloqueio(p, f);
      OneMore(p, t, key, f, primeira, antes, now);
      AllAreChecked(p, Passo(p, t, e), key, f + 1, primeira, now, k - 1);
      var es, r := Insistir(p, key, f, antes, k), Insistir(p, key, f + 1, now, k - 1);
      assert es == [e] + r && es[1..] == r;
      assert f + 1 + (k - 1) == f + k;
    }
  }

  // ----- putting runs together -----

  lemma {:induction false} RunsInARow(p: Politica, t: Tabela, a: seq<Evento>, b: seq<Evento>, key: string)
    ensures Estado(p, t, a + b) == Estado(p, Estado(p, t, a), b)
    ensures Falhas(p, t, a + b, key) == Falhas(p, t, a, key) + Falhas(p, Estado(p, t, a), b, key)
    decreases |a|
  {
    if a == [] {
      assert a + b == b;
    } else {
      RunsInARow(p, Passo(p, t, a[0]), a[1..], b, key);
      assert (a + b)[1..] == a[1..] + b;
    }
  }

  lemma {:induction false} TimesInARow(a: seq<Evento>, b: seq<Evento>, x: int, y: int, z: int)
    requires Cronologico(a, x, y) && Cronologico(b, y, z)
    ensures Cronologico(a + b, x, z)
    decreases |a|
  {
    if a == [] {
      assert a + b == b;
      Earlier(b, x, y, z);
    } else {
      TimesInARow(a[1..], b, a[0].t, y, z);
      assert (a + b)[1..] == a[1..] + b;
    }
  }

  lemma Earlier(es: seq<Evento>, x: int, y: int, z: int)
    requires x <= y && Cronologico(es, y, z)
    ensures Cronologico(es, x, z)
  {}

  lemma {:induction false} Later(es: seq<Evento>, x: int, y: int, z: int)
    requires y <= z && Cronologico(es, x, y)
    ensures Cronologico(es, x, z)
    decreases |es|
  {
    if es != [] {
      Later(es[1..], es[0].t, y, z);
    }
  }

  lemma NoSuccessInARow(a: seq<Evento>, b: seq<Evento>, key: string)
    requires SemSucesso(a, key) && SemSucesso(b, key)
    ensures SemSucesso(a + b, key)
  {}

  // ----- 65 in 24 hours -----

  const COMECO := 719 * MINUTO
  const REINICIO := 24 * HORA + 1

  /** One failure at time 0; from 719 minutes on, 32 more in its count, and as soon as the window of the
      first has gone by, 33 in the next. */
  function Velhas(key: string): seq<Evento> {
    [Tentativa(key, COMECO, false)] + Insistir(PADRAO, key, 2, COMECO, 31)
  }

  function Novas(key: string): seq<Evento> {
    [Tentativa(key, REINICIO, false)] + Insistir(PADRAO, key, 1, REINICIO, 32)
  }

  lemma LocksOf33()
    ensures SomaBloqueios(PADRAO, 33) == 691 * MINUTO && Bloqueio(PADRAO, 33) == 30 * MINUTO
    ensures SomaBloqueios(PADRAO, 2) == 0 && SomaBloqueios(PADRAO, 1) == 0 && Bloqueio(PADRAO, 1) == 0
  {
    DefaultLocks(33);
  }

  lemma FirstFailure(key: string)
    requires key != ""
    ensures Linha(Estado(PADRAO, map[], [Tentativa(key, 0, false)]), key) == Algo(Contadas(PADRAO, 1, 0, 0))
  {
    LockIsPositive(PADRAO, 1);
    var es := [Tentativa(key, 0, false)];
    assert es[1..] == [];
    assert Estado(PADRAO, map[], es) == Passo(PADRAO, map[], es[0]);
    RowsAreIndependent(PADRAO, map[], key, es[0]);
  }

  /** An attempt followed by the insistent ones after it. */
  lemma AttemptAndMore(t: Tabela, key: string, now: int, f: int, primeira: int, k: nat)
    requires key != "" && f >= 1 && FalhaDe(t, key, Tentativa(key, now, false))
    requires Linha(Passo(PADRAO, t, Tentativa(key, now, false)), key) == Algo(Contadas(PADRAO, f, primeira, now))
    requires now + SomaBloqueios(PADRAO, f + k) - SomaBloqueios(PADRAO, f) <= primeira + PADRAO.janela
    ensures var es := [Tentativa(key, now, false)] + Insistir(PADRAO, key, f, now, k);
            var fim := now + SomaBloqueios(PADRAO, f + k) - SomaBloqueios(PADRAO, f);
            && Falhas(PADRAO, t, es, key) == k + 1 && Cronologico(es, now, fim) && SemSucesso(es, key)
            && Linha(Estado(PADRAO, t, es), key) == Algo(Contadas(PADRAO, f + k, primeira, fim))
  {
    var e := Tentativa(key, now, false);
    AllAreChecked(PADRAO, Passo(PADRAO, t, e), key, f, primeira, now, k);
    var r := Insistir(PADRAO, key, f, now, k);
    assert ([e] + r)[1..] == r;
  }

  lemma OldCount(t: Tabela, key: string)
    requires key != "" && Linha(t, key) == Algo(Contadas(PADRAO, 1, 0, 0))
    ensures Falhas(PADRAO, t, Velhas(key), key) == 32 && SemSucesso(Velhas(key), key)
    ensures Cronologico(Velhas(key), COMECO, 1410 * MINUTO)
    ensures Linha(Estado(PADRAO, t, Velhas(key)), key) == Algo(Contadas(PADRAO, 33, 0, 1410 * MINUTO))
  {
    LocksOf33();
    OneMore(PADRAO, t, key, 1, 0, 0, COMECO);
    AttemptAndMore(t, key, COMECO, 2, 0, 31);
  }

  lemma NewCount(t: Tabela, key: string)
    requires key != "" && Linha(t, key) == Algo(Contadas(PADRAO, 33, 0, 1410 * MINUTO))
    ensures Falhas(PADRAO, t, Novas(key), key) == 33 && SemSucesso(Novas(key), key)
    ensures Cronologico(Novas(key), REINICIO, REINICIO + 691 * MINUTO)
  {
    LocksOf33();
    OneMore(PADRAO, t, key, 33, 0, 1410 * MINUTO, REINICIO);
    AttemptAndMore(t, key, REINICIO, 1, REINICIO, 32);
  }

  /** 65 wrong passwords are checked in 24 hours: the bound of the default policy is reached. */
  lemma SixtyFiveAreChecked(key: string)
    requires key != ""
    ensures var antes, es := [Tentativa(key, 0, false)], Velhas(key) + Novas(key);
            && Cronologico(antes, 0, COMECO) && Cronologico(es, COMECO, COMECO + 24 * HORA) && SemSucesso(es, key)
            && Falhas(PADRAO, Estado(PADRAO, map[], antes), es, key) == 65
  {
    var t := Estado(PADRAO, map[], [Tentativa(key, 0, false)]);
    FirstFailure(key);
    OldCount(t, key);
    NewCount(Estado(PADRAO, t, Velhas(key)), key);
    RunsInARow(PADRAO, t, Velhas(key), Novas(key), key);
    Earlier(Novas(key), 1410 * MINUTO, REINICIO, REINICIO + 691 * MINUTO);
    TimesInARow(Velhas(key), Novas(key), COMECO, 1410 * MINUTO, REINICIO + 691 * MINUTO);
    Later(Velhas(key) + Novas(key), COMECO, REINICIO + 691 * MINUTO, COMECO + 24 * HORA);
    NoSuccessInARow(Velhas(key), Novas(key), key);
  }
}
