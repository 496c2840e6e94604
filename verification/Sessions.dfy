/**
 What session rotation promises: a retired session never comes back, a chain of
 refreshes has one live session, and what Validate accepts goes back to a login.
 */
module Sessions {
  import opened Prelude
  import opened SessionMachine

  predicate Saves(p: Phase, sid: string) {
    (p.SavingAccess? || p.SavingRefresh?) && p.pair.access.sid == sid
  }

  /** The session was opened, and no call is still writing its keys. */
  ghost predicate Settled(s: State, sid: string) {
    sid in s.parents && forall c :: c in s.calls ==> !Saves(s.calls[c], sid)
  }

  // ----- In every interleaving: sessions do not come back -----

  ghost predicate PhaseOk(s: State, p: Phase) {
    match p
    case SavingAccess(pair) =>
      && pair.access.sid == pair.refresh.sid && pair.access.sid in s.parents
      && pair.access.sid !in s.access && pair.access.sid !in s.refresh
    case SavingRefresh(pair) =>
      pair.access.sid == pair.refresh.sid && pair.access.sid in s.parents && pair.access.sid !in s.refresh
    case Checking(claims) => Settled(s, claims.sid)
    case RetiringAccess(claims) => Settled(s, claims.sid)
    case RetiringRefresh(claims) => Settled(s, claims.sid) && claims.sid !in s.access
    case Validating(claims, _) => Settled(s, claims.sid)
    case Issuing(_, parent) =>
      parent.FromRefresh? ==> Settled(s, parent.sid) && parent.sid !in s.access && parent.sid !in s.refresh
    case _ => true
  }

  /** No two calls write the keys of one session. */
  ghost predicate OneSaver(calls: map<nat, Phase>) {
    forall c, d, sid :: c in calls && d in calls && Saves(calls[c], sid) && Saves(calls[d], sid) ==> c == d
  }

  ghost predicate KnownSids(s: State) {
    && (forall sid :: sid in s.access || sid in s.refresh ==> sid in s.parents)
    && s.roots.Keys == s.parents.Keys
    && (forall sid :: sid in s.roots ==> s.roots[sid] in s.parents)
  }

  ghost predicate KeysInv(s: State) {
    && KnownSids(s) && OneSaver(s.calls)
    && (forall d :: d in s.delivered ==> Settled(s, d.sid))
    && (forall c :: c in s.calls ==> PhaseOk(s, s.calls[c]))
  }

  /** What the step of a call may write, and where it leads, given the phase it starts from. */
  ghost predicate EffectOk(s: State, p: Phase, f: Effect) {
    && (f.access.Put? ==> p.SavingAccess? && f.sid == p.pair.access.sid)
    && (f.refresh.Put? ==> p.SavingRefresh? && f.sid == p.pair.access.sid && f.phase.Done?)
    && (f.born.Some? <==> f.phase.SavingAccess?)
    && (f.returned.Some? ==> p.SavingRefresh? && f.returned.value == p.pair && f.phase.Done?)
    && match f.phase
       case SavingAccess(pair) =>
         && p.Issuing? && f.born == Some(p.parent) && f.sid !in s.parents && f.access.Keep? && f.refresh.Keep?
         && pair.access.sid == pair.refresh.sid == f.sid && pair.access.user == pair.refresh.user == p.user
       case SavingRefresh(pair) => p.SavingAccess? && pair == p.pair && f.refresh.Keep?
       case RetiringAccess(claims) =>
         p == Checking(claims) && f.access.Keep? && f.refresh.Keep? && RefreshLive(s, claims.sid)
       case RetiringRefresh(claims) => p == RetiringAccess(claims) && f.access.Drop? && f.sid == claims.sid
       case Issuing(user, parent) =>
         && p.RetiringRefresh? && parent == FromRefresh(p.claims.sid) && user == p.claims.user
         && f.access.Keep? && f.refresh.Drop? && f.sid == p.claims.sid
       case Checking(_) => false
       case Validating(_, _) => false
       case _ => true
  }

  lemma EffectIsOk(s: State, p: Phase, e: Event)
    requires EffectOf(s, p, e).Some?
    ensures EffectOk(s, p, EffectOf(s, p, e).value)
  {
  }

  /** The step of a call. */
  ghost predicate Moves(s: State, s': State, c: nat, f: Effect) {
    c in s.calls && EffectOk(s, s.calls[c], f) && s' == Perform(s, c, f)
  }

  /** Time passes, or a call begins; `c` is its number then. */
  ghost predicate Rests(s: State, s': State) {
    && s'.config == s.config && s.now <= s'.now && s'.access == s.access && s'.refresh == s.refresh
    && s'.parents == s.parents && s'.roots == s.roots && s'.delivered == s.delivered
    && (forall c :: c in s.calls ==> c in s'.calls && s'.calls[c] == s.calls[c])
    && (forall c :: c in s'.calls && c !in s.calls ==> BeginsOk(s, s'.calls[c]))
  }

  ghost predicate BeginsOk(s: State, p: Phase) {
    match p
    case Checking(claims) => claims in s.delivered && s.now < claims.expiresAt
    case Validating(claims, _) => claims in s.delivered && s.now < claims.expiresAt
    case Issuing(user, parent) => parent == FromLogin(user)
    case Closing(_, _) => true
    case Done(answer) => answer.InvalidToken? || answer.Failed?
    case _ => false
  }

  lemma StepMovesOrRests(s: State, s': State, e: Event)
    requires Step(s, e) == Some(s')
    ensures if e.Tick? || Opens(e) then Rests(s, s') && (Opens(e) ==> s'.now == s.now)
            else EffectOf(s, s.calls[e.call], e).Some? && Moves(s, s', e.call, EffectOf(s, s.calls[e.call], e).value)
  {
    if !e.Tick? && !Opens(e) {
      EffectIsOk(s, s.calls[e.call], e);
      hide EffectOf, EffectOk, Perform;
    }
  }

  /** A settled session can only lose keys. */
  lemma MoveKeepsSettled(s: State, s': State, c: nat, f: Effect, sid: string)
    requires Moves(s, s', c, f) && Settled(s, sid)
    ensures Settled(s', sid)
    ensures sid in s'.access ==> sid in s.access && s'.access[sid] == s.access[sid]
    ensures sid in s'.refresh ==> sid in s.refresh && s'.refresh[sid] == s.refresh[sid]
  {
    assert !Saves(s.calls[c], sid);
  }

  lemma RestKeepsSettled(s: State, s': State, sid: string)
    requires Rests(s, s') && Settled(s, sid)
    ensures Settled(s', sid)
  {
  }

  /** Only the call that opened a session writes its keys. */
  lemma OwnSidStays(s: State, s': State, c: nat, f: Effect, d: nat, sid: string)
    requires Moves(s, s', c, f) && OneSaver(s.calls) && d in s.calls && d != c && Saves(s.calls[d], sid)
    ensures sid in s.parents ==> sid in s'.parents
    ensures sid !in s.access ==> sid !in s'.access
    ensures sid !in s.refresh ==> sid !in s'.refresh
  {
    assert !Saves(s.calls[c], sid);
    hide OneSaver;
  }

  /** The phase clauses of a call that does not move survive the step of another. */
  lemma OtherPhaseStays(s: State, s': State, c: nat, f: Effect, d: nat)
    requires Moves(s, s', c, f) && OneSaver(s.calls) && d in s.calls && d != c && PhaseOk(s, s.calls[d])
    ensures PhaseOk(s', s.calls[d])
  {
    var p := s.calls[d];
    hide Moves, OneSaver, Settled;
    match p
    case SavingAccess(pair) => OwnSidStays(s, s', c, f, d, pair.access.sid);
    case SavingRefresh(pair) => OwnSidStays(s, s', c, f, d, pair.access.sid);
    case Checking(claims) => MoveKeepsSettled(s, s', c, f, claims.sid);
    case RetiringAccess(claims) => MoveKeepsSettled(s, s', c, f, claims.sid);
    case RetiringRefresh(claims) => MoveKeepsSettled(s, s', c, f, claims.sid);
    case Validating(claims, _) => MoveKeepsSettled(s, s', c, f, claims.sid);
    case Issuing(_, parent) => if parent.FromRefresh? { MoveKeepsSettled(s, s', c, f, parent.sid); }
    case _ =>
  }

  lemma OwnPhaseOk(s: State, s': State, c: nat, f: Effect)
    requires Moves(s, s', c, f) && KnownSids(s) && PhaseOk(s, s.calls[c])
    ensures PhaseOk(s', f.phase)
  {
    match f.phase
    case SavingAccess(pair) =>
      assert f.sid !in s.access && f.sid !in s.refresh;
      hide KnownSids, Settled;
    case SavingRefresh(pair) => hide KnownSids, Settled;
    case RetiringAccess(claims) => RetiringIsOk(s, s', c, f);
    case RetiringRefresh(claims) => RetiringIsOk(s, s', c, f);
    case Issuing(_, parent) => RetiringIsOk(s, s', c, f);
    case _ =>
  }

  lemma RetiringIsOk(s: State, s': State, c: nat, f: Effect)
    requires Moves(s, s', c, f) && PhaseOk(s, s.calls[c])
    requires f.phase.RetiringAccess? || f.phase.RetiringRefresh? || f.phase.Issuing?
    ensures PhaseOk(s', f.phase)
  {
    var sid := s.calls[c].claims.sid;
    MoveKeepsSettled(s, s', c, f, sid);
    hide Settled;
  }

  lemma ReturnedSettles(s: State, s': State, c: nat, f: Effect, d: Claims)
    requires Moves(s, s', c, f) && OneSaver(s.calls) && PhaseOk(s, s.calls[c])
    requires d in s'.delivered && d !in s.delivered
    ensures Settled(s', d.sid)
  {
    assert Saves(s.calls[c], d.sid) && d.sid in s.parents;
    forall x | x in s'.calls ensures !Saves(s'.calls[x], d.sid) {
      assert x in s.calls;
      assert x != c ==> !Saves(s.calls[x], d.sid);
    }
  }

  lemma SaversDiffer(s: State, s': State, c: nat, f: Effect)
    requires Moves(s, s', c, f) && OneSaver(s.calls)
    requires forall x :: x in s.calls ==> PhaseOk(s, s.calls[x])
    ensures OneSaver(s'.calls)
  {
    forall x, sid | x in s.calls && x != c && Saves(s.calls[x], sid) ensures !Saves(f.phase, sid) {
      assert PhaseOk(s, s.calls[x]);
      assert f.phase.SavingRefresh? ==> f.phase.pair == s.calls[c].pair;
    }
    hide Saves, PhaseOk, EffectOk;
  }

  lemma MoveKeepsKnown(s: State, s': State, c: nat, f: Effect)
    requires Moves(s, s', c, f) && KnownSids(s) && PhaseOk(s, s.calls[c])
    ensures KnownSids(s')
  {
    KnownKeys(s, s', c, f);
    KnownRoots(s, s', c, f);
    hide Moves, PhaseOk;
  }

  lemma KnownKeys(s: State, s': State, c: nat, f: Effect)
    requires Moves(s, s', c, f) && KnownSids(s) && PhaseOk(s, s.calls[c])
    ensures forall sid :: sid in s'.access || sid in s'.refresh ==> sid in s'.parents
  {
    hide PhaseOk, EffectOk, RootOf, Written;
    PutIsKnown(s, s.calls[c], f);
    WrittenKeys(s.access, f.sid, f.access, s.now + s.config.accessTtl);
    WrittenKeys(s.refresh, f.sid, f.refresh, s.now + s.config.refreshTtl);
  }

  lemma PutIsKnown(s: State, p: Phase, f: Effect)
    requires EffectOk(s, p, f) && PhaseOk(s, p)
    ensures f.access.Put? || f.refresh.Put? ==> f.sid in s.parents
  {
    hide Settled;
  }

  lemma WrittenKeys(keys: map<string, int>, sid: string, write: Write, expiry: int)
    ensures forall x :: x in Written(keys, sid, write, expiry) ==> x in keys || (write.Put? && x == sid)
  {
  }

  lemma KnownRoots(s: State, s': State, c: nat, f: Effect)
    requires Moves(s, s', c, f) && KnownSids(s)
    ensures s'.roots.Keys == s'.parents.Keys
    ensures forall sid :: sid in s'.roots ==> s'.roots[sid] in s'.parents
  {
    hide EffectOk, Written;
  }

  lemma MoveKeepsKeys(s: State, s': State, c: nat, f: Effect)
    requires Moves(s, s', c, f) && KeysInv(s)
    ensures KeysInv(s')
  {
    assert PhaseOk(s, s.calls[c]);
    MoveKeepsKnown(s, s', c, f);
    SaversDiffer(s, s', c, f);
    forall d | d in s'.delivered ensures Settled(s', d.sid) {
      if d in s.delivered { MoveKeepsSettled(s, s', c, f, d.sid); } else { ReturnedSettles(s, s', c, f, d); }
    }
    forall d | d in s'.calls ensures PhaseOk(s', s'.calls[d]) {
      if d == c { OwnPhaseOk(s, s', c, f); } else { OtherPhaseStays(s, s', c, f, d); }
    }
    hide PhaseOk, Settled, OneSaver, KnownSids, Moves;
  }

  lemma RestKeepsKeys(s: State, s': State)
    requires Rests(s, s') && KeysInv(s)
    ensures KeysInv(s')
  {
    assert forall x :: x in s'.calls && x !in s.calls ==> forall sid :: !Saves(s'.calls[x], sid);
    forall sid | Settled(s, sid) ensures Settled(s', sid) { RestKeepsSettled(s, s', sid); }
    hide Settled;
    forall x | x in s'.calls ensures PhaseOk(s', s'.calls[x]) { RestKeepsPhase(s, s', x); }
    hide PhaseOk, BeginsOk;
  }

  lemma RestKeepsPhase(s: State, s': State, c: nat)
    requires Rests(s, s') && c in s'.calls
    requires c in s.calls ==> PhaseOk(s, s.calls[c])
    requires forall d :: d in s.delivered ==> Settled(s, d.sid)
    requires forall sid :: Settled(s, sid) ==> Settled(s', sid)
    ensures PhaseOk(s', s'.calls[c])
  {
    hide Settled;
  }

  lemma StepKeepsKeys(s: State, s': State, e: Event)
    requires Step(s, e) == Some(s') && KeysInv(s)
    ensures KeysInv(s')
  {
    StepMovesOrRests(s, s', e);
    if e.Tick? || Opens(e) {
      RestKeepsKeys(s, s');
    } else {
      MoveKeepsKeys(s, s', e.call, EffectOf(s, s.calls[e.call], e).value);
    }
    hide KeysInv, Rests, Moves, Step;
  }

  lemma {:induction false} RunKeepsKeys(config: Config, es: seq<Event>)
    requires Run(config, es).Some?
    ensures KeysInv(Run(config, es).value)
  {
    if es != [] {
      RunKeepsKeys(config, es[..|es| - 1]);
      StepKeepsKeys(Run(config, es[..|es| - 1]).value, Run(config, es).value, es[|es| - 1]);
    }
  }

  lemma {:induction false} PrefixRuns(config: Config, es: seq<Event>, k: nat)
    requires Run(config, es).Some? && k <= |es|
    ensures Run(config, es[..k]).Some?
  {
    if k == |es| {
      assert es[..k] == es;
    } else {
      var shorter := es[..|es| - 1];
      PrefixRuns(config, shorter, k);
      assert shorter[..k] == es[..k];
    }
  }

  /** A settled session that has lost a key, or whose key has expired, never gets it back. */
  lemma {:induction false} DeadStaysDead(config: Config, es: seq<Event>, k: nat, sid: string)
    requires Run(config, es).Some? && k <= |es|
    requires Run(config, es[..k]).Some? ==> Settled(Run(config, es[..k]).value, sid)
    ensures Run(config, es[..k]).Some?
    ensures var early, late := Run(config, es[..k]).value, Run(config, es).value;
      && Settled(late, sid)
      && (AccessLive(late, sid) ==> AccessLive(early, sid)) && (RefreshLive(late, sid) ==> RefreshLive(early, sid))
  {
    PrefixRuns(config, es, k);
    if k == |es| {
      assert es[..k] == es;
    } else {
      var shorter, e := es[..|es| - 1], es[|es| - 1];
      assert shorter[..k] == es[..k];
      DeadStaysDead(config, shorter, k, sid);
      var s, s' := Run(config, shorter).value, Run(config, es).value;
      StepMovesOrRests(s, s', e);
      if e.Tick? || Opens(e) {
        RestKeepsSettled(s, s', sid);
      } else {
        var f := EffectOf(s, s.calls[e.call], e).value;
        MoveKeepsSettled(s, s', e.call, f, sid);
        assert s'.now == s.now;
      }
      hide Step, Settled, Moves;
    }
  }

  /** The step by which Refresh retires the refresh key, having retired the access key. */
  predicate Retires(s: State, e: Event, sid: string) {
    && e.Delete? && e.call in s.calls && s.calls[e.call].RetiringRefresh?
    && s.calls[e.call].claims.sid == sid && !e.fate.NoEffect?
  }

  /**
   Once Refresh has retired a session, in no later state is one of its keys
   live, so no token that carries its sid passes Validate or Refresh again.
   */
  lemma {:induction false} RetiredForGood(config: Config, es: seq<Event>, k: nat, sid: string)
    requires Run(config, es).Some? && k < |es|
    requires Run(config, es[..k]).Some? ==> Retires(Run(config, es[..k]).value, es[k], sid)
    ensures var s := Run(config, es).value;
      && !AccessLive(s, sid) && !RefreshLive(s, sid)
      && forall p: Phase, up ::
           (p.Checking? || p.Validating?) && p.claims.sid == sid && Looked(s, p, up).Some? ==>
             Looked(s, p, up).value.phase == Done(if up then InvalidToken else Failed)
  {
    PrefixRuns(config, es, k);
    PrefixRuns(config, es, k + 1);
    assert es[..k + 1][..k] == es[..k];
    var s, s' := Run(config, es[..k]).value, Run(config, es[..k + 1]).value;
    RunKeepsKeys(config, es[..k]);
    RetireKills(s, s', es[k], sid);
    DeadStaysDead(config, es, k + 1, sid);
  }

  lemma RetireKills(s: State, s': State, e: Event, sid: string)
    requires Step(s, e) == Some(s') && KeysInv(s) && Retires(s, e, sid)
    ensures Settled(s', sid) && !AccessLive(s', sid) && !RefreshLive(s', sid)
  {
    assert PhaseOk(s, s.calls[e.call]);
    hide KeysInv, Settled, Step;
    StepMovesOrRests(s, s', e);
    var f := EffectOf(s, s.calls[e.call], e).value;
    assert f.refresh.Drop? && f.sid == sid;
    hide EffectOf;
    MoveKeepsSettled(s, s', e.call, f, sid);
  }
}
