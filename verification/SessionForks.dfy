/**
 The guard of `SessionChains` is needed: once two calls have passed the check of
 one session, both can go on and leave two live sessions of one login.
 */
module SessionForks {
  import opened Prelude
  import opened SessionMachine
  import opened Sessions
  import opened SessionChains

  lemma {:induction false} Go(config: Config, es: seq<Event>, s: State, e: Event, s': State) returns (es': seq<Event>)
    requires Run(config, es) == Some(s) && Step(s, e) == Some(s')
    ensures es' == es + [e] && Run(config, es') == Some(s')
  {
    hide Step;
    es' := es + [e];
    assert es'[..|es|] == es;
  }

  lemma {:induction false} ConfigIsKept(config: Config, es: seq<Event>)
    requires Run(config, es).Some?
    ensures Run(config, es).value.config == config
  {
    if es != [] {
      ConfigIsKept(config, es[..|es| - 1]);
      hide EffectOf, Begins;
    }
  }

  /** What a call that replaces `sid` by `born` leaves alone. */
  ghost predicate Elsewhere(s: State, s': State, c: nat, sid: string, born: string) {
    && s'.now == s.now && s'.config == s.config
    && (forall d :: d != c && d in s.calls ==> d in s'.calls && s'.calls[d] == s.calls[d])
    && (forall x :: x != sid && x != born ==> (x in s.access <==> x in s'.access) && (x in s.refresh <==> x in s'.refresh))
    && (forall x :: x != sid && x != born && x in s.access ==> s'.access[x] == s.access[x])
    && (forall x :: x in s.roots && x != born ==> x in s'.roots && s'.roots[x] == s.roots[x])
    && (forall x :: x in s'.parents ==> x in s.parents || x == born)
  }

  lemma ElsewhereChains(s: State, t: State, u: State, c: nat, sid: string, born: string)
    requires Elsewhere(s, t, c, sid, born) && Elsewhere(t, u, c, sid, born)
    ensures Elsewhere(s, u, c, sid, born)
  {
  }

  lemma DeletesAccess(s: State, c: nat, claims: Claims, born: string)
    requires c in s.calls && s.calls[c] == RetiringAccess(claims)
    ensures Step(s, Delete(c, Ok)).Some?
    ensures var s' := Step(s, Delete(c, Ok)).value;
      && Elsewhere(s, s', c, claims.sid, born) && c in s'.calls && s'.calls[c] == RetiringRefresh(claims)
      && s'.parents == s.parents && s'.roots == s.roots
  {
  }

  lemma DeletesRefresh(s: State, c: nat, claims: Claims, born: string)
    requires c in s.calls && s.calls[c] == RetiringRefresh(claims)
    ensures Step(s, Delete(c, Ok)).Some?
    ensures var s' := Step(s, Delete(c, Ok)).value;
      && Elsewhere(s, s', c, claims.sid, born)
      && c in s'.calls && s'.calls[c] == Issuing(claims.user, FromRefresh(claims.sid))
      && s'.parents == s.parents && s'.roots == s.roots
  {
  }

  function PairOf(s: State, user: User, sid: string): Pair {
    Pair(NewClaims(user, sid, s.now, s.config.accessTtl), NewClaims(user, sid, s.now, s.config.refreshTtl))
  }

  lemma Issues(s: State, c: nat, user: User, sid: string, born: string)
    requires c in s.calls && s.calls[c] == Issuing(user, FromRefresh(sid)) && born !in s.parents && sid in s.roots
    ensures Step(s, Event.Issue(c, born)).Some?
    ensures var s' := Step(s, Event.Issue(c, born)).value;
      && Elsewhere(s, s', c, sid, born)
      && c in s'.calls && s'.calls[c] == SavingAccess(PairOf(s, user, born))
      && born in s'.roots && s'.roots[born] == s.roots[sid]
  {
  }

  lemma SavesAccess(s: State, c: nat, pair: Pair, sid: string)
    requires c in s.calls && s.calls[c] == SavingAccess(pair) && s.config.accessTtl > 0
    ensures Step(s, SaveAccess(c, Ok)).Some?
    ensures var s' := Step(s, SaveAccess(c, Ok)).value;
      && Elsewhere(s, s', c, sid, pair.access.sid) && s'.roots == s.roots
      && c in s'.calls && s'.calls[c] == SavingRefresh(pair) && AccessLive(s', pair.access.sid)
  {
  }

  lemma SavesRefresh(s: State, c: nat, pair: Pair, sid: string)
    requires c in s.calls && s.calls[c] == SavingRefresh(pair) && AccessLive(s, pair.access.sid)
    requires s.config.refreshTtl > 0
    ensures Step(s, SaveRefresh(c, Ok)).Some?
    ensures var s' := Step(s, SaveRefresh(c, Ok)).value;
      && Elsewhere(s, s', c, sid, pair.access.sid) && s'.roots == s.roots
      && c in s'.calls && s'.calls[c] == Done(Issued(pair))
      && AccessLive(s', pair.access.sid) && RefreshLive(s', pair.access.sid)
      && pair.access in s'.delivered && pair.refresh in s'.delivered
  {
  }

  /** A call past its check can go on to open a live successor, and leaves everything else alone. */
  lemma {:induction false} RefreshSucceeds(config: Config, es: seq<Event>, s: State, c: nat, sid: string, born: string)
    returns (es': seq<Event>, s': State)
    requires Run(config, es) == Some(s) && c in s.calls && Retiring(s.calls[c], sid)
    requires sid in s.roots && born != sid && born !in s.parents && s.config.accessTtl > 0 && s.config.refreshTtl > 0
    ensures es <= es' && Run(config, es') == Some(s') && Elsewhere(s, s', c, sid, born)
    ensures AccessLive(s', born) && born in s'.roots && s'.roots[born] == s.roots[sid]
  {
    hide Step, Run, Elsewhere, AccessLive, RefreshLive;
    var claims := s.calls[c].claims;
    var t := s;
    es' := es;
    if s.calls[c].RetiringAccess? {
      DeletesAccess(s, c, claims, born);
      t := Step(s, Delete(c, Ok)).value;
      es' := Go(config, es, s, Delete(c, Ok), t);
    } else {
      ElsewhereSelf(s, c, sid, born);
    }
    ElsewhereKeeps(s, t, c, sid, born, sid);
    es', s' := RetiredSucceeds(config, es', t, c, claims, born);
    ElsewhereChains(s, t, s', c, sid, born);
  }

  lemma ElsewhereSelf(s: State, c: nat, sid: string, born: string)
    ensures Elsewhere(s, s, c, sid, born)
  {
  }

  lemma ElsewhereKeeps(s: State, s': State, c: nat, sid: string, born: string, x: string)
    requires Elsewhere(s, s', c, sid, born)
    ensures s'.config == s.config && (x in s.roots && x != born ==> x in s'.roots && s'.roots[x] == s.roots[x])
    ensures x !in s.parents && x != born ==> x !in s'.parents
  {
  }

  lemma {:induction false} RetiredSucceeds(config: Config, es: seq<Event>, s: State, c: nat, claims: Claims, born: string)
    returns (es': seq<Event>, s': State)
    requires Run(config, es) == Some(s) && c in s.calls && s.calls[c] == RetiringRefresh(claims)
    requires claims.sid in s.roots && born != claims.sid && born !in s.parents && s.config.accessTtl > 0 && s.config.refreshTtl > 0
    ensures es <= es' && Run(config, es') == Some(s') && Elsewhere(s, s', c, claims.sid, born)
    ensures AccessLive(s', born) && born in s'.roots && s'.roots[born] == s.roots[claims.sid]
  {
    hide Step, Run, Elsewhere, AccessLive, RefreshLive;
    var sid := claims.sid;
    DeletesRefresh(s, c, claims, born);
    var t := Step(s, Delete(c, Ok)).value;
    es' := Go(config, es, s, Delete(c, Ok), t);
    Issues(t, c, claims.user, sid, born);
    var u := Step(t, Event.Issue(c, born)).value;
    es' := Go(config, es', t, Event.Issue(c, born), u);
    ElsewhereChains(s, t, u, c, sid, born);
    var pair := PairOf(t, claims.user, born);
    ElsewhereKeeps(s, u, c, sid, born, sid);
    SavesAccess(u, c, pair, sid);
    var v := Step(u, SaveAccess(c, Ok)).value;
    es' := Go(config, es', u, SaveAccess(c, Ok), v);
    ElsewhereChains(s, u, v, c, sid, born);
    ElsewhereKeeps(s, v, c, sid, born, sid);
    SavesRefresh(v, c, pair, sid);
    s' := Step(v, SaveRefresh(c, Ok)).value;
    es' := Go(config, es', v, SaveRefresh(c, Ok), s');
    ElsewhereChains(s, v, s', c, sid, born);
  }

  /** Two live sessions that go back to one login. */
  predicate Forked(s: State, a: string, b: string) {
    a != b && Live(s, a) && Live(s, b) && RootAt(s, a).Some? && RootAt(s, a) == RootAt(s, b)
  }

  /** Two calls past the check of one session can both succeed. */
  lemma {:induction false} BothSucceed(config: Config, es: seq<Event>, s: State, c: nat, d: nat, sid: string)
    returns (more: seq<Event>, a: string, b: string)
    requires Run(config, es) == Some(s) && c in s.calls && d in s.calls && c != d
    requires Retiring(s.calls[c], sid) && Retiring(s.calls[d], sid) && sid in s.roots && sid in s.parents
    requires s.config.accessTtl > 0 && s.config.refreshTtl > 0
    ensures es <= more && Run(config, more).Some? && Forked(Run(config, more).value, a, b)
  {
    hide Run, Elsewhere, AccessLive, RefreshLive, Retiring;
    a := FreshString(s.parents.Keys);
    b := FreshString(s.parents.Keys + {a});
    var t, u: State;
    more, t := RefreshSucceeds(config, es, s, c, sid, a);
    ElsewhereKeeps(s, t, c, sid, a, sid);
    ElsewhereKeeps(s, t, c, sid, a, b);
    OtherIsKept(s, t, c, sid, a, d);
    more, u := RefreshSucceeds(config, more, t, d, sid, b);
    ElsewhereKeeps(t, u, d, sid, b, a);
    LiveIsKept(t, u, d, sid, b, a);
  }

  /**
   The converse of `OneLiveSessionPerLogin`: a step that breaks the guard can
   always be followed by steps that succeed and end in two live sessions.
   */
  lemma {:induction false} OverlapForks(config: Config, es: seq<Event>, e: Event)
    returns (more: seq<Event>, a: string, b: string)
    requires Run(config, es).Some? && Overlaps(Run(config, es).value, e)
    requires config.accessTtl > 0 && config.refreshTtl > 0
    ensures es + [e] <= more && Run(config, more).Some? && Forked(Run(config, more).value, a, b)
  {
    var s := Run(config, es).value;
    var c, sid := e.call, s.calls[e.call].claims.sid;
    var d :| d in s.calls && Retiring(s.calls[d], sid);
    RunKeepsKeys(config, es);
    assert PhaseOk(s, s.calls[c]) && sid in s.roots && sid in s.parents;
    hide Step, Run, KeysInv, PhaseOk, Forked;
    ConfigIsKept(config, es);
    var s' := PassedCheck(s, e);
    more := Go(config, es, s, e, s');
    more, a, b := BothSucceed(config, more, s', c, d, sid);
  }

  lemma PassedCheck(s: State, e: Event) returns (s': State)
    requires Overlaps(s, e)
    ensures Step(s, e) == Some(s') && s'.roots == s.roots && s'.parents == s.parents && s'.config == s.config
    ensures e.call in s'.calls && Retiring(s'.calls[e.call], s.calls[e.call].claims.sid)
    ensures forall d :: d in s.calls && d != e.call ==> d in s'.calls && s'.calls[d] == s.calls[d]
  {
    s' := Step(s, e).value;
  }

  lemma OtherIsKept(s: State, s': State, c: nat, sid: string, born: string, d: nat)
    requires Elsewhere(s, s', c, sid, born) && d in s.calls && d != c
    ensures d in s'.calls && s'.calls[d] == s.calls[d]
  {
  }

  lemma LiveIsKept(s: State, s': State, c: nat, sid: string, born: string, x: string)
    requires Elsewhere(s, s', c, sid, born) && AccessLive(s, x) && x != sid && x != born
    ensures AccessLive(s', x)
  {
  }

  /** A run that breaks the guard has a prefix from which two live sessions can be reached. */
  lemma {:induction false} BrokenGuardForks(config: Config, es: seq<Event>) returns (k: nat, more: seq<Event>, a: string, b: string)
    requires Run(config, es).Some? && !Guarded(config, es) && config.accessTtl > 0 && config.refreshTtl > 0
    ensures k < |es| && es[..k + 1] <= more && Run(config, more).Some? && Forked(Run(config, more).value, a, b)
  {
    k :| 0 <= k < |es| && Run(config, es[..k]).Some? && Overlaps(Run(config, es[..k]).value, es[k]);
    assert es[..k] + [es[k]] == es[..k + 1];
    more, a, b := OverlapForks(config, es[..k], es[k]);
  }

  // ----- Witness -----

  const RIDER := User("u", ["user"])
  const MINUTE := 60 * SECOND
  const TIMES := Config(20 * MINUTE, 14 * 24 * 60 * MINUTE)

  /** The only session, issued at time zero. */
  const FIRST := Pair(NewClaims(RIDER, "a", 0, TIMES.accessTtl), NewClaims(RIDER, "a", 0, TIMES.refreshTtl))

  function LoggedIn(calls: map<nat, Phase>): State {
    State(TIMES, 0, map["a" := TIMES.accessTtl], map["a" := TIMES.refreshTtl], calls,
          map["a" := FromLogin(RIDER)], map["a" := "a"], {FIRST.access, FIRST.refresh})
  }

  const S0 := Init(TIMES).(calls := map[0 := Issuing(RIDER, FromLogin(RIDER))])
  const S1 := S0.(calls := map[0 := SavingAccess(FIRST)], parents := map["a" := FromLogin(RIDER)], roots := map["a" := "a"])
  const S2 := S1.(calls := map[0 := SavingRefresh(FIRST)], access := map["a" := TIMES.accessTtl])
  const S3 := LoggedIn(map[0 := Done(Issued(FIRST))])

  lemma Overwrite<V>(a: V, b: V)
    ensures map[0 := a][0 := b] == map[0 := b]
  {
  }

  lemma LoginSteps()
    ensures Step(Init(TIMES), Login(0, Some(RIDER))) == Some(S0)
    ensures Step(S0, Event.Issue(0, "a")) == Some(S1)
  {
    Overwrite(S0.calls[0], S1.calls[0]);
    assert EffectOf(S0, S0.calls[0], Event.Issue(0, "a")).value.phase == SavingAccess(FIRST);
  }

  lemma SaveSteps()
    ensures Step(S1, SaveAccess(0, Ok)) == Some(S2)
    ensures Step(S2, SaveRefresh(0, Ok)) == Some(S3)
  {
    Overwrite(S1.calls[0], S2.calls[0]);
    Overwrite(S2.calls[0], S3.calls[0]);
    var s := Step(S2, SaveRefresh(0, Ok)).value;
    assert s.delivered == S3.delivered && s.refresh == S3.refresh;
  }

  /** Two refreshes with the same token, both before the check. */
  lemma BothBegin() returns (s: State, t: State, u: State)
    ensures Step(S3, Refresh(1, Signed(FIRST.refresh))) == Some(s)
    ensures Step(s, Refresh(2, Signed(FIRST.refresh))) == Some(t)
    ensures Step(t, Exists(1, true)) == Some(u)
    ensures Overlaps(u, Exists(2, true))
  {
    s := Step(S3, Refresh(1, Signed(FIRST.refresh))).value;
    t := Step(s, Refresh(2, Signed(FIRST.refresh))).value;
    u := Step(t, Exists(1, true)).value;
    assert Retiring(u.calls[1], "a") && RefreshLive(u, "a");
  }

  /** Two overlapping refreshes of one session, and two live sessions of one login after them. */
  lemma TwoLiveSessions() returns (es: seq<Event>, a: string, b: string)
    ensures Run(TIMES, es).Some? && Forked(Run(TIMES, es).value, a, b)
  {
    assert Run(TIMES, []) == Some(Init(TIMES));
    hide Step, Run, Forked, Overlaps;
    LoginSteps();
    SaveSteps();
    es := Go(TIMES, [], Init(TIMES), Login(0, Some(RIDER)), S0);
    es := Go(TIMES, es, S0, Event.Issue(0, "a"), S1);
    es := Go(TIMES, es, S1, SaveAccess(0, Ok), S2);
    es := Go(TIMES, es, S2, SaveRefresh(0, Ok), S3);
    var s, t, u := BothBegin();
    es := Go(TIMES, es, S3, Refresh(1, Signed(FIRST.refresh)), s);
    es := Go(TIMES, es, s, Refresh(2, Signed(FIRST.refresh)), t);
    es := Go(TIMES, es, t, Exists(1, true), u);
    es, a, b := OverlapForks(TIMES, es, Exists(2, true));
  }
}
