/**
 One live session a login chain. Two refreshes that overlap on one session can
 both open a successor, so the claim depends on a guard: no call passes the
 session check while another one is between its own check and its
 DeleteRefreshSession. A run that breaks the guard can go on to two live
 sessions; `SessionForks` shows how.
 */
module SessionChains {
  import opened Prelude
  import opened SessionMachine
  import opened Sessions

  /** The first session of the chain of refreshes: the one its login opened. */
  function RootAt(s: State, sid: string): Option<string> {
    if sid in s.roots then Some(s.roots[sid]) else None
  }

  predicate Keyed(s: State, sid: string) {
    sid in s.access || sid in s.refresh
  }

  predicate Live(s: State, sid: string) {
    AccessLive(s, sid) || RefreshLive(s, sid)
  }

  // ----- The guard -----

  /** The call has passed the check of this session and has not yet deleted its refresh key. */
  predicate Retiring(p: Phase, sid: string) {
    (p.RetiringAccess? || p.RetiringRefresh?) && p.claims.sid == sid
  }

  /** The step passes the check of a session that another call is retiring. */
  ghost predicate Overlaps(s: State, e: Event) {
    && e.Exists? && e.up && e.call in s.calls && s.calls[e.call].Checking?
    && RefreshLive(s, s.calls[e.call].claims.sid)
    && exists d :: d in s.calls && Retiring(s.calls[d], s.calls[e.call].claims.sid)
  }

  ghost predicate Guarded(config: Config, es: seq<Event>) {
    forall k :: 0 <= k < |es| && Run(config, es[..k]).Some? ==> !Overlaps(Run(config, es[..k]).value, es[k])
  }

  // ----- What guarded runs keep -----

  ghost predicate HasChild(s: State, sid: string) {
    exists t :: t in s.parents && s.parents[t] == FromRefresh(sid)
  }

  /** The call is about to retire this session, or to open its successor. */
  predicate Replaces(p: Phase, sid: string) {
    Retiring(p, sid) || (p.Issuing? && p.parent == FromRefresh(sid))
  }

  /** One call at most replaces a session, and only one that has no successor yet. */
  ghost predicate OneReplacer(s: State) {
    && (forall c, d, sid :: c in s.calls && d in s.calls && Replaces(s.calls[c], sid) && Replaces(s.calls[d], sid) ==> c == d)
    && (forall c, sid :: c in s.calls && Replaces(s.calls[c], sid) ==> !HasChild(s, sid))
  }

  /** A session with a successor has lost its keys for good. */
  ghost predicate ParentsAreDead(s: State) {
    forall sid :: HasChild(s, sid) ==> Settled(s, sid) && !Keyed(s, sid)
  }

  /** Each chain ends in one session. */
  ghost predicate OneEnd(s: State) {
    forall a, b :: a in s.roots && b in s.roots && !HasChild(s, a) && !HasChild(s, b) && s.roots[a] == s.roots[b] ==> a == b
  }

  ghost predicate RotationInv(s: State) {
    OneReplacer(s) && ParentsAreDead(s) && OneEnd(s)
  }

  lemma BornChild(s: State, s': State, c: nat, f: Effect, sid: string)
    requires Moves(s, s', c, f)
    ensures HasChild(s, sid) ==> HasChild(s', sid)
    ensures HasChild(s', sid) ==> HasChild(s, sid) || f.born == Some(FromRefresh(sid))
  {
    if HasChild(s, sid) {
      var t :| t in s.parents && s.parents[t] == FromRefresh(sid);
      assert t in s'.parents && s'.parents[t] == FromRefresh(sid);
    }
    if HasChild(s', sid) {
      var t :| t in s'.parents && s'.parents[t] == FromRefresh(sid);
      assert t in s.parents ==> s.parents[t] == s'.parents[t] || t == f.sid;
    }
    hide RootOf, Written;
  }

  /** The phase a call moves to replaces a session only if it did before, or has just seen its refresh key. */
  lemma MoveReplaces(s: State, s': State, c: nat, f: Effect, sid: string)
    requires Moves(s, s', c, f) && Replaces(f.phase, sid)
    ensures f.born.None?
    ensures Replaces(s.calls[c], sid) || (f.phase.RetiringAccess? && s.calls[c].Checking? && RefreshLive(s, sid))
  {
  }

  /** The call that moves is the only one to replace its session, which has no successor. */
  lemma MoverIsAlone(s: State, s': State, c: nat, f: Effect, sid: string)
    requires Moves(s, s', c, f) && KeysInv(s) && RotationInv(s) && Replaces(f.phase, sid)
    requires f.phase.RetiringAccess? ==> forall d :: d in s.calls ==> !Retiring(s.calls[d], f.phase.claims.sid)
    ensures !HasChild(s', sid) && forall y :: y in s.calls && y != c ==> !Replaces(s.calls[y], sid)
  {
    hide HasChild, EffectOk, OneEnd, Settled, KnownSids, OneSaver, Perform;
    BornChild(s, s', c, f, sid);
    MoveReplaces(s, s', c, f, sid);
    if !Replaces(s.calls[c], sid) {
      forall y | y in s.calls ensures !Replaces(s.calls[y], sid) { assert PhaseOk(s, s.calls[y]); }
    }
  }

  lemma BornOf(s: State, p: Phase, f: Effect)
    requires EffectOk(s, p, f)
    ensures f.born.Some? ==> p.Issuing? && f.born.value == p.parent && f.sid !in s.parents && f.phase.SavingAccess?
  {
  }

  /** A call that does not move still replaces a session without a successor. */
  lemma OtherReplaces(s: State, s': State, c: nat, f: Effect, x: nat, sid: string)
    requires Moves(s, s', c, f) && RotationInv(s) && x in s.calls && x != c && Replaces(s.calls[x], sid)
    ensures !HasChild(s', sid)
  {
    hide HasChild, EffectOk, OneEnd, ParentsAreDead, Perform;
    BornChild(s, s', c, f, sid);
    BornOf(s, s.calls[c], f);
  }

  lemma MoveKeepsOneReplacer(s: State, s': State, c: nat, f: Effect)
    requires Moves(s, s', c, f) && KeysInv(s) && RotationInv(s)
    requires f.phase.RetiringAccess? ==> forall d :: d in s.calls ==> !Retiring(s.calls[d], f.phase.claims.sid)
    ensures OneReplacer(s')
  {
    hide KeysInv, ParentsAreDead, OneEnd, HasChild, EffectOk, Written, RootOf, Replaces;
    forall sid | Replaces(f.phase, sid)
      ensures !HasChild(s', sid) && forall y :: y in s.calls && y != c ==> !Replaces(s.calls[y], sid)
    {
      MoverIsAlone(s, s', c, f, sid);
    }
    forall x, sid | x in s.calls && x != c && Replaces(s.calls[x], sid) ensures !HasChild(s', sid) {
      OtherReplaces(s, s', c, f, x, sid);
    }
  }

  lemma MoveKeepsParentsDead(s: State, s': State, c: nat, f: Effect)
    requires Moves(s, s', c, f) && KeysInv(s) && RotationInv(s)
    ensures ParentsAreDead(s')
  {
    forall sid | HasChild(s', sid) ensures Settled(s', sid) && !Keyed(s', sid) {
      BornChild(s, s', c, f, sid);
      assert PhaseOk(s, s.calls[c]);
      ParentDies(s, s', c, f, sid);
    }
    hide Settled, Keyed, KeysInv, HasChild, Moves;
  }

  lemma ParentDies(s: State, s': State, c: nat, f: Effect, sid: string)
    requires Moves(s, s', c, f) && PhaseOk(s, s.calls[c]) && ParentsAreDead(s)
    requires HasChild(s, sid) || f.born == Some(FromRefresh(sid))
    ensures Settled(s', sid) && !Keyed(s', sid)
  {
    assert Settled(s, sid) && !Keyed(s, sid);
    MoveKeepsSettled(s, s', c, f, sid);
    hide Settled;
  }

  lemma MoveKeepsOneEnd(s: State, s': State, c: nat, f: Effect)
    requires Moves(s, s', c, f) && KeysInv(s) && RotationInv(s)
    ensures OneEnd(s')
  {
    hide HasChild, Moves, KeysInv, OneReplacer, ParentsAreDead, OneEnd;
    forall a, b | a in s'.roots && b in s'.roots && !HasChild(s', a) && !HasChild(s', b) && s'.roots[a] == s'.roots[b]
      ensures a == b
    {
      if f.born.Some? && a == f.sid {
        NewbornIsEnd(s, s', c, f, b);
      } else if f.born.Some? && b == f.sid {
        NewbornIsEnd(s, s', c, f, a);
      } else {
        OldEndsAgree(s, s', c, f, a, b);
      }
    }
    EndsAre(s');
  }

  lemma EndsAre(s: State)
    requires forall a, b :: a in s.roots && b in s.roots && !HasChild(s, a) && !HasChild(s, b) && s.roots[a] == s.roots[b] ==> a == b
    ensures OneEnd(s)
  {
    hide HasChild;
  }

  lemma RootsAfter(s: State, s': State, c: nat, f: Effect)
    requires Moves(s, s', c, f) && KnownSids(s)
    ensures forall x :: x in s'.roots ==> x in s.roots || (f.born.Some? && x == f.sid)
    ensures forall x :: x in s.roots ==> x in s'.roots && s'.roots[x] == s.roots[x]
    ensures f.born.Some? ==> f.sid !in s.roots && s'.roots[f.sid] == RootOf(s, f.sid, f.born.value)
  {
    hide EffectOk, RootOf, Written;
    BornOf(s, s.calls[c], f);
  }

  /** Ends that were there before the step were ends then. */
  lemma OldEndsAgree(s: State, s': State, c: nat, f: Effect, a: string, b: string)
    requires Moves(s, s', c, f) && KeysInv(s) && RotationInv(s) && a in s'.roots && b in s'.roots
    requires !HasChild(s', a) && !HasChild(s', b) && s'.roots[a] == s'.roots[b]
    requires f.born.Some? ==> a != f.sid && b != f.sid
    ensures a == b
  {
    hide HasChild, EffectOk, OneReplacer, ParentsAreDead, OneSaver, Settled, Perform, KnownSids;
    RootsAfter(s, s', c, f);
    BornChild(s, s', c, f, a);
    BornChild(s, s', c, f, b);
  }

  /** A newborn session is the only end of its chain: its parent was that before. */
  lemma NewbornIsEnd(s: State, s': State, c: nat, f: Effect, a: string)
    requires Moves(s, s', c, f) && KeysInv(s) && RotationInv(s) && f.born.Some? && f.sid in s'.roots && a in s'.roots
    requires !HasChild(s', a) && s'.roots[a] == s'.roots[f.sid]
    ensures a == f.sid
  {
    hide HasChild, EffectOk, OneSaver, Perform, OneReplacer, ParentsAreDead, OneEnd, Settled, PhaseOk;
    RootsAfter(s, s', c, f);
    if a != f.sid && f.born.value.FromRefresh? {
      ParentWasEnd(s, s', c, f);
      BornChild(s, s', c, f, a);
      SameEnd(s, a, f.born.value.sid);
    }
  }

  lemma SameEnd(s: State, a: string, b: string)
    requires OneEnd(s) && a in s.roots && b in s.roots && !HasChild(s, a) && !HasChild(s, b) && s.roots[a] == s.roots[b]
    ensures a == b
  {
    hide HasChild;
  }

  lemma ParentWasEnd(s: State, s': State, c: nat, f: Effect)
    requires Moves(s, s', c, f) && KeysInv(s) && OneReplacer(s) && f.born.Some? && f.born.value.FromRefresh?
    ensures var x := f.born.value.sid; x in s.roots && !HasChild(s, x) && HasChild(s', x)
  {
    var p, x := s.calls[c], f.born.value.sid;
    BornOf(s, p, f);
    assert PhaseOk(s, p) && x in s.roots;
    assert s'.parents[f.sid] == FromRefresh(x);
    assert HasChild(s', x);
    hide HasChild, EffectOk, KeysInv, Perform, Settled;
    assert Replaces(p, x);
  }

  lemma RestKeepsRotation(s: State, s': State)
    requires Rests(s, s') && KeysInv(s) && RotationInv(s)
    ensures RotationInv(s')
  {
    hide BeginsOk, PhaseOk, KnownSids, OneSaver;
    RestReplaces(s, s');
    assert forall sid :: HasChild(s', sid) <==> HasChild(s, sid);
    hide HasChild, Replaces, Settled, Rests;
    forall sid | HasChild(s', sid) ensures Settled(s', sid) && !Keyed(s', sid) { RestKeepsDead(s, s', sid); }
    RestKeepsEnds(s, s');
  }

  lemma RestKeepsDead(s: State, s': State, sid: string)
    requires Rests(s, s') && Settled(s, sid) && !Keyed(s, sid)
    ensures Settled(s', sid) && !Keyed(s', sid)
  {
    RestKeepsSettled(s, s', sid);
  }

  lemma RestKeepsEnds(s: State, s': State)
    requires Rests(s, s') && OneEnd(s)
    ensures OneEnd(s')
  {
    assert forall sid :: HasChild(s', sid) <==> HasChild(s, sid);
    hide HasChild, BeginsOk;
  }

  /** A call that begins replaces nothing. */
  lemma RestReplaces(s: State, s': State)
    requires Rests(s, s')
    ensures forall c, sid :: c in s'.calls && Replaces(s'.calls[c], sid) ==> c in s.calls && s.calls[c] == s'.calls[c]
  {
  }

  lemma {:induction false} RunKeepsRotation(config: Config, es: seq<Event>)
    requires Run(config, es).Some? && Guarded(config, es)
    ensures RotationInv(Run(config, es).value)
  {
    if es != [] {
      var shorter, e := es[..|es| - 1], es[|es| - 1];
      var s, s' := Run(config, shorter).value, Run(config, es).value;
      assert forall k :: 0 <= k < |shorter| ==> shorter[..k] == es[..k];
      RunKeepsRotation(config, shorter);
      RunKeepsKeys(config, shorter);
      StepKeepsRotation(s, s', e);
    }
  }

  /** A call begins to retire a session only by passing its check. */
  lemma PassesCheck(s: State, p: Phase, e: Event)
    requires EffectOf(s, p, e).Some?
    ensures var next := EffectOf(s, p, e).value.phase;
      next.RetiringAccess? ==>
        e.Exists? && e.up && p.Checking? && p.claims == next.claims && RefreshLive(s, next.claims.sid)
  {
  }

  lemma StepKeepsRotation(s: State, s': State, e: Event)
    requires Step(s, e) == Some(s') && KeysInv(s) && RotationInv(s) && !Overlaps(s, e)
    ensures RotationInv(s')
  {
    assert !e.Tick? && !Opens(e) ==> e.call in s.calls;
    hide KeysInv, Moves, Rests, Step, EffectOf, OneReplacer, ParentsAreDead, OneEnd;
    StepMovesOrRests(s, s', e);
    if e.Tick? || Opens(e) {
      RestKeepsRotation(s, s');
    } else {
      var f := EffectOf(s, s.calls[e.call], e).value;
      PassesCheck(s, s.calls[e.call], e);
      MoveKeepsOneReplacer(s, s', e.call, f);
      MoveKeepsParentsDead(s, s', e.call, f);
      MoveKeepsOneEnd(s, s', e.call, f);
    }
  }

  /**
   With failures at any store call, and calls overlapping as long as none passes
   the check of a session that another is retiring: the refreshes that go back to
   one login have at most one session with a live key.
   */
  lemma {:induction false} OneLiveSessionPerLogin(config: Config, es: seq<Event>, a: string, b: string)
    requires Run(config, es).Some? && Guarded(config, es)
    requires var s := Run(config, es).value;
      Live(s, a) && Live(s, b) && RootAt(s, a) == RootAt(s, b)
    ensures a == b
  {
    hide Run, HasChild, OneReplacer, ParentsAreDead, OneEnd, KeysInv, Live;
    RunKeepsRotation(config, es);
    RunKeepsKeys(config, es);
    var s := Run(config, es).value;
    LiveIsEnd(s, a);
    LiveIsEnd(s, b);
    SameEnd(s, a, b);
  }

  lemma LiveIsEnd(s: State, a: string)
    requires KeysInv(s) && ParentsAreDead(s) && Live(s, a)
    ensures a in s.roots && !HasChild(s, a)
  {
    hide HasChild, Settled, OneSaver, PhaseOk;
    assert Keyed(s, a);
  }
}
