/** Logins over runs in which any call to the attempt store may fail. */
module LockoutErros {
  import opened Comum
  import opened Lockout

  datatype Passagem = Login(key: string, t: int, cred: Credencial, falhas: FalhasDaLoja) | Faxina(t: int)

  function Passar(p: Politica, t: Tabela, e: Passagem): Tabela {
    match e
    case Login(key, now, cred, falhas) => LoginNaLoja(p, t, key, now, cred, falhas).0
    case Faxina(now) => DeleteStaleSpec(t, now, p.janela)
  }

  function Depois(p: Politica, t: Tabela, es: seq<Passagem>): Tabela
    decreases |es|
  {
    if es == [] then t else Depois(p, Passar(p, t, es[0]), es[1..])
  }

  predicate EmOrdem(es: seq<Passagem>, inicio: int, fim: int) {
    if es == [] then inicio <= fim else inicio <= es[0].t && EmOrdem(es[1..], es[0].t, fim)
  }

  /** No lock outlasts the longest one counted from now. */
  predicate Curta(p: Politica, r: Registro, now: int) {
    r.bloqueadoAte.Algo? ==> r.bloqueadoAte.valor <= now + p.max
  }

  predicate Curtas(p: Politica, t: Tabela, now: int) {
    forall k :: k in t ==> Curta(p, t[k], now)
  }

  lemma LockIsAtMostMax(p: Politica, falhas: int)
    requires PoliticaOk(p)
    ensures Bloqueio(p, falhas) <= p.max
  {}

  lemma StepKeepsLocksShort(p: Politica, t: Tabela, e: Passagem, antes: int)
    requires PoliticaOk(p) && Curtas(p, t, antes) && antes <= e.t
    ensures Curtas(p, Passar(p, t, e), e.t)
  {
    if e.Login? {
      LockIsAtMostMax(p, ComFalha(Linha(t, e.key), e.t, p.janela).falhas);
    }
  }

  lemma {:induction false} LocksStayShort(p: Politica, t: Tabela, es: seq<Passagem>, inicio: int, fim: int)
    requires PoliticaOk(p) && Curtas(p, t, inicio) && EmOrdem(es, inicio, fim)
    ensures Curtas(p, Depois(p, t, es), fim)
    decreases |es|
  {
    if es != [] {
      StepKeepsLocksShort(p, t, es[0], inicio);
      LocksStayShort(p, Passar(p, t, es[0]), es[1..], es[0].t, fim);
    }
  }

  /** Whatever calls to the store have failed, and whichever fail now, a key is told to wait for MaxLock at
      most, and the right password gets in once MaxLock has passed without an attempt. */
  lemma NobodyStaysLockedOut(p: Politica, es: seq<Passagem>, inicio: int, fim: int, key: string, now: int,
                             cred: Credencial, falhas: FalhasDaLoja)
    requires PoliticaOk(p) && EmOrdem(es, inicio, fim) && fim <= now
    ensures var s := LoginNaLoja(p, Depois(p, map[], es), key, now, cred, falhas).1;
            && (s.Bloqueado? ==> 0 < s.espera <= p.max)
            && (cred == Certa && now >= fim + p.max ==> s == Sucesso)
  {
    LocksStayShort(p, map[], es, inicio, fim);
    if cred == Certa {
      RightPasswordGetsInIff(p, Depois(p, map[], es), key, now, falhas);
    }
  }
}
