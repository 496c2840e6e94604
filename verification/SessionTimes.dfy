/**
 When tokens were signed and how long they are good: exp is the moment of the
 signature plus the lifetime of the token, cut to a whole second.
 */
module SessionTimes {
  import opened Prelude
  import opened SessionMachine
  import opened Sessions

  /** Signed at moment `t` with this lifetime; both times of a token are whole seconds. */
  predicate Fits(claims: Claims, t: int, ttl: int) {
    && t - 1_000_000_000 < claims.issuedAt <= t && claims.issuedAt % 1_000_000_000 == 0
    && t + ttl - 1_000_000_000 < claims.expiresAt <= t + ttl && claims.expiresAt % 1_000_000_000 == 0
  }

  predicate SignedAt(pair: Pair, t: int, config: Config) {
    Fits(pair.access, t, config.accessTtl) && Fits(pair.refresh, t, config.refreshTtl)
  }

  lemma NewClaimsFit(user: User, sid: string, now: int, ttl: int)
    ensures Fits(NewClaims(user, sid, now, ttl), now, ttl)
  {
    WholeSecond(now);
    WholeSecond(now + ttl);
  }

  lemma WholeSecond(x: int)
    ensures x - SECOND < x / SECOND * SECOND <= x && x / SECOND * SECOND % SECOND == 0
  {
    assert x == SECOND * (x / SECOND) + x % SECOND;
  }

  // ----- Along a run -----

  /** Event `i` of the run drew the sid of the pair, and signed it at that moment. */
  predicate SignedBy(config: Config, es: seq<Event>, i: nat, pair: Pair) {
    && i < |es| && es[i].Issue? && es[i].sid == pair.access.sid == pair.refresh.sid
    && Run(config, es[..i]).Some? && SignedAt(pair, Run(config, es[..i]).value.now, config)
  }

  ghost predicate WasSigned(config: Config, es: seq<Event>, pair: Pair) {
    exists i: nat :: SignedBy(config, es, i, pair)
  }

  /** The claims are those of the access or the refresh token of a pair that was signed. */
  ghost predicate OfSignedPair(config: Config, es: seq<Event>, d: Claims) {
    exists pair: Pair :: WasSigned(config, es, pair) && (d == pair.access || d == pair.refresh)
  }

  predicate PairOf(p: Phase, pair: Pair) {
    p == SavingAccess(pair) || p == SavingRefresh(pair) || p == Done(Issued(pair))
  }

  ghost predicate TimesInv(config: Config, es: seq<Event>, s: State) {
    && s.config == config
    && (forall c, pair :: c in s.calls && PairOf(s.calls[c], pair) ==> WasSigned(config, es, pair))
    && (forall d :: d in s.delivered ==> OfSignedPair(config, es, d))
  }

  lemma {:induction false} SignedStays(config: Config, es: seq<Event>, e: Event, pair: Pair)
    requires WasSigned(config, es, pair)
    ensures WasSigned(config, es + [e], pair)
  {
    var i: nat :| SignedBy(config, es, i, pair);
    assert (es + [e])[..i] == es[..i];
    assert SignedBy(config, es + [e], i, pair);
  }

  lemma {:induction false} PairIsSigned(config: Config, es: seq<Event>, e: Event, s: State, f: Effect, pair: Pair)
    requires Run(config, es) == Some(s) && TimesInv(config, es, s) && !e.Tick? && !Opens(e) && e.call in s.calls
    requires EffectOf(s, s.calls[e.call], e) == Some(f) && PairOf(f.phase, pair)
    ensures WasSigned(config, es + [e], pair)
  {
    var more := es + [e];
    assert more[..|es|] == es && more[|es|] == e;
    hide Run;
    if e.Issue? {
      NewClaimsFit(s.calls[e.call].user, e.sid, s.now, config.accessTtl);
      NewClaimsFit(s.calls[e.call].user, e.sid, s.now, config.refreshTtl);
      hide Fits;
      assert SignedBy(config, more, |es|, pair);
    } else {
      hide WasSigned;
      assert PairOf(s.calls[e.call], pair);
      SignedStays(config, es, e, pair);
    }
  }

  lemma {:induction false} MoveKeepsTimes(config: Config, es: seq<Event>, e: Event, s: State, s': State, f: Effect)
    requires Run(config, es) == Some(s) && TimesInv(config, es, s) && !e.Tick? && !Opens(e) && e.call in s.calls
    requires EffectOf(s, s.calls[e.call], e) == Some(f) && s' == Perform(s, e.call, f)
    ensures TimesInv(config, es + [e], s')
  {
    EffectIsOk(s, s.calls[e.call], e);
    forall pair | WasSigned(config, es, pair) ensures WasSigned(config, es + [e], pair) { SignedStays(config, es, e, pair); }
    hide Run, WasSigned, Written, RootOf;
    forall c, pair | c in s'.calls && PairOf(s'.calls[c], pair) ensures WasSigned(config, es + [e], pair) {
      if c == e.call { PairIsSigned(config, es, e, s, f, pair); }
    }
    forall d | d in s'.delivered ensures OfSignedPair(config, es + [e], d) {
      if d !in s.delivered { assert PairOf(s.calls[e.call], f.returned.value); }
    }
  }

  lemma {:induction false} RestKeepsTimes(config: Config, es: seq<Event>, e: Event, s: State, s': State)
    requires TimesInv(config, es, s) && Rests(s, s')
    ensures TimesInv(config, es + [e], s')
  {
    forall pair | WasSigned(config, es, pair) ensures WasSigned(config, es + [e], pair) { SignedStays(config, es, e, pair); }
    hide WasSigned;
  }

  lemma {:induction false} RunKeepsTimes(config: Config, es: seq<Event>)
    requires Run(config, es).Some?
    ensures TimesInv(config, es, Run(config, es).value)
  {
    if es != [] {
      var shorter, e := es[..|es| - 1], es[|es| - 1];
      var s, s' := Run(config, shorter).value, Run(config, es).value;
      RunKeepsTimes(config, shorter);
      assert es == shorter + [e];
      StepMovesOrRests(s, s', e);
      if e.Tick? || Opens(e) {
        RestKeepsTimes(config, shorter, e, s, s');
      } else {
        MoveKeepsTimes(config, shorter, e, s, s', EffectOf(s, s.calls[e.call], e).value);
      }
    }
  }

  /**
   Every token that was handed out was signed by an Issue step at some moment t,
   with the lifetime of an access or of a refresh token; it parses up to one second
   before t plus that lifetime, and never from that moment on.
   */
  lemma {:induction false} TokensLastTheirLifetime(config: Config, es: seq<Event>, d: Claims) returns (i: nat, ttl: int)
    requires Run(config, es).Some? && d in Run(config, es).value.delivered
    ensures i < |es| && es[i].Issue? && es[i].sid == d.sid && Run(config, es[..i]).Some?
    ensures ttl == config.accessTtl || ttl == config.refreshTtl
    ensures var t, s := Run(config, es[..i]).value.now, Run(config, es).value;
      && t <= s.now
      && (s.now <= t + ttl - 1_000_000_000 ==> Parses(s, Signed(d)))
      && (s.now >= t + ttl ==> !Parses(s, Signed(d)))
  {
    RunKeepsTimes(config, es);
    var pair: Pair :| WasSigned(config, es, pair) && (d == pair.access || d == pair.refresh);
    i :| SignedBy(config, es, i, pair);
    ttl := if d == pair.access then config.accessTtl else config.refreshTtl;
    NowGrows(config, es, i);
  }

  lemma {:induction false} NowGrows(config: Config, es: seq<Event>, k: nat)
    requires Run(config, es).Some? && k <= |es|
    ensures Run(config, es[..k]).Some? && Run(config, es[..k]).value.now <= Run(config, es).value.now
  {
    PrefixRuns(config, es, k);
    if k == |es| {
      assert es[..k] == es;
    } else {
      var shorter := es[..|es| - 1];
      assert shorter[..k] == es[..k];
      NowGrows(config, shorter, k);
      hide EffectOf, Begins;
    }
  }
}
