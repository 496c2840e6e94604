/** Where the identity in a token comes from: one login, and a chain of refreshes after it. */
module SessionLineage {
  import opened Prelude
  import opened SessionMachine
  import opened Sessions

  // ----- Chains of sessions -----

  /** The path starts at a session opened by a login of this user, and each next one was refreshed from the one before. */
  ghost predicate Chain(parents: map<string, Parent>, path: seq<string>, user: User) {
    && path != [] && path[0] in parents && parents[path[0]] == FromLogin(user)
    && forall i :: 1 <= i < |path| ==> path[i] in parents && parents[path[i]] == FromRefresh(path[i - 1])
  }

  ghost predicate Descends(parents: map<string, Parent>, sid: string, user: User) {
    exists path :: Chain(parents, path, user) && path[|path| - 1] == sid
  }

  ghost predicate Extends(parents: map<string, Parent>, parents': map<string, Parent>) {
    forall sid :: sid in parents ==> sid in parents' && parents'[sid] == parents[sid]
  }

  lemma DescendsStays(parents: map<string, Parent>, parents': map<string, Parent>, sid: string, user: User)
    requires Extends(parents, parents') && Descends(parents, sid, user)
    ensures Descends(parents', sid, user)
  {
    var path :| Chain(parents, path, user) && path[|path| - 1] == sid;
    assert Chain(parents', path, user);
  }

  lemma BornDescends(parents: map<string, Parent>, sid: string, parent: Parent, user: User)
    requires sid !in parents
    requires if parent.FromLogin? then parent.user == user else Descends(parents, parent.sid, user)
    ensures Descends(parents[sid := parent], sid, user)
  {
    var parents' := parents[sid := parent];
    if parent.FromLogin? {
      assert Chain(parents', [sid], user);
    } else {
      var path :| Chain(parents, path, user) && path[|path| - 1] == parent.sid;
      assert Chain(parents', path + [sid], user);
    }
  }

  /** The identity that a phase carries, with the session it belongs to. */
  ghost predicate PhaseDescends(parents: map<string, Parent>, p: Phase) {
    match p
    case Issuing(user, parent) =>
      if parent.FromLogin? then parent.user == user else Descends(parents, parent.sid, user)
    case SavingAccess(pair) => PairDescends(parents, pair)
    case SavingRefresh(pair) => PairDescends(parents, pair)
    case Checking(claims) => Descends(parents, claims.sid, claims.user)
    case RetiringAccess(claims) => Descends(parents, claims.sid, claims.user)
    case RetiringRefresh(claims) => Descends(parents, claims.sid, claims.user)
    case Validating(claims, _) => Descends(parents, claims.sid, claims.user)
    case Done(Issued(pair)) => PairDescends(parents, pair)
    case Done(Validated(claims)) => Descends(parents, claims.sid, claims.user)
    case _ => true
  }

  ghost predicate PairDescends(parents: map<string, Parent>, pair: Pair) {
    Descends(parents, pair.access.sid, pair.access.user) && Descends(parents, pair.refresh.sid, pair.refresh.user)
  }

  ghost predicate LineageInv(s: State) {
    && (forall d :: d in s.delivered ==> Descends(s.parents, d.sid, d.user))
    && (forall c :: c in s.calls ==> PhaseDescends(s.parents, s.calls[c]))
  }

  lemma PhaseDescendsStays(parents: map<string, Parent>, parents': map<string, Parent>, p: Phase)
    requires Extends(parents, parents') && PhaseDescends(parents, p)
    ensures PhaseDescends(parents', p)
  {
    forall sid, user | Descends(parents, sid, user) ensures Descends(parents', sid, user) {
      DescendsStays(parents, parents', sid, user);
    }
    hide Descends, Extends;
  }

  lemma EffectDescends(s: State, p: Phase, e: Event)
    requires EffectOf(s, p, e).Some? && PhaseDescends(s.parents, p)
    ensures var f := EffectOf(s, p, e).value;
      var parents' := if f.born.Some? then s.parents[f.sid := f.born.value] else s.parents;
      && PhaseDescends(parents', f.phase) && Extends(s.parents, parents')
      && (f.returned.Some? ==> PairDescends(s.parents, f.returned.value) && f.born.None?)
  {
    if e.Issue? {
      BornDescends(s.parents, e.sid, p.parent, p.user);
    }
    hide Descends;
  }

  lemma StepKeepsLineage(s: State, s': State, e: Event)
    requires Step(s, e) == Some(s') && LineageInv(s)
    ensures LineageInv(s')
  {
    if e.Tick? || Opens(e) {
      StepMovesOrRests(s, s', e);
      hide Step, Descends;
    } else {
      var p := s.calls[e.call];
      assert PhaseDescends(s.parents, p);
      EffectDescends(s, p, e);
      var f := EffectOf(s, p, e).value;
      hide EffectOf, PhaseDescends, Descends, Extends, Written, RootOf;
      forall d | d in s'.delivered ensures Descends(s'.parents, d.sid, d.user) {
        if d in s.delivered { DescendsStays(s.parents, s'.parents, d.sid, d.user); }
      }
      forall c | c in s'.calls ensures PhaseDescends(s'.parents, s'.calls[c]) {
        if c != e.call { PhaseDescendsStays(s.parents, s'.parents, s.calls[c]); }
      }
    }
  }

  lemma {:induction false} RunKeepsLineage(config: Config, es: seq<Event>)
    requires Run(config, es).Some?
    ensures LineageInv(Run(config, es).value)
  {
    if es != [] {
      RunKeepsLineage(config, es[..|es| - 1]);
      StepKeepsLineage(Run(config, es[..|es| - 1]).value, Run(config, es).value, es[|es| - 1]);
    }
  }

  // ----- What happened before -----

  /** Call `e` began in this run, and the token it came with verified and was unexpired then. */
  ghost predicate Began(config: Config, es: seq<Event>, e: Event) {
    exists i :: 0 <= i < |es| && es[i] == e && BeganAt(config, es, i)
  }

  predicate BeganAt(config: Config, es: seq<Event>, i: nat)
    requires i < |es|
  {
    && Run(config, es[..i]).Some?
    && (es[i].Refresh? || es[i].Validate? ==> Parses(Run(config, es[..i]).value, es[i].token))
  }

  /** Call `c` found the access key of the session live, and the role among the roles. */
  ghost predicate Admitted(config: Config, es: seq<Event>, c: nat, claims: Claims, role: string) {
    exists i :: 0 <= i < |es| && es[i] == Exists(c, true) && AdmittedAt(config, es, i, claims, role)
  }

  predicate AdmittedAt(config: Config, es: seq<Event>, i: nat, claims: Claims, role: string)
    requires i < |es|
  {
    && Run(config, es[..i]).Some?
    && AccessLive(Run(config, es[..i]).value, claims.sid) && (role != "" ==> role in claims.user.roles)
  }

  /** Session `sid` was opened by a login of the user, or by a refresh with a good token of the parent. */
  ghost predicate OpenedBy(config: Config, es: seq<Event>, sid: string, parent: Parent) {
    exists c: nat ::
      && Event.Issue(c, sid) in es
      && (if parent.FromLogin? then Began(config, es, Login(c, Some(parent.user)))
          else exists claims: Claims :: claims.sid == parent.sid && Began(config, es, Refresh(c, Signed(claims))))
  }

  ghost predicate PhaseHistory(config: Config, es: seq<Event>, c: nat, p: Phase) {
    match p
    case Issuing(user, parent) =>
      if parent.FromLogin? then Began(config, es, Login(c, Some(parent.user)))
      else exists claims: Claims :: claims.sid == parent.sid && Began(config, es, Refresh(c, Signed(claims)))
    case Checking(claims) => Began(config, es, Refresh(c, Signed(claims)))
    case RetiringAccess(claims) => Began(config, es, Refresh(c, Signed(claims)))
    case RetiringRefresh(claims) => Began(config, es, Refresh(c, Signed(claims)))
    case Validating(claims, role) => Began(config, es, Validate(c, Signed(claims), role))
    case Done(Validated(claims)) =>
      exists role: string :: Began(config, es, Validate(c, Signed(claims), role)) && Admitted(config, es, c, claims, role)
    case _ => true
  }

  ghost predicate HistoryInv(config: Config, es: seq<Event>, s: State) {
    && (forall sid :: sid in s.parents ==> OpenedBy(config, es, sid, s.parents[sid]))
    && (forall c :: c in s.calls ==> PhaseHistory(config, es, c, s.calls[c]))
  }

  lemma {:induction false} BeganStays(config: Config, es: seq<Event>, x: Event, e: Event)
    requires Began(config, es, e)
    ensures Began(config, es + [x], e)
  {
    var i :| 0 <= i < |es| && es[i] == e && BeganAt(config, es, i);
    assert (es + [x])[..i] == es[..i];
    assert BeganAt(config, es + [x], i);
  }

  lemma {:induction false} AdmittedStays(config: Config, es: seq<Event>, x: Event, c: nat, claims: Claims, role: string)
    requires Admitted(config, es, c, claims, role)
    ensures Admitted(config, es + [x], c, claims, role)
  {
    var i :| 0 <= i < |es| && es[i] == Exists(c, true) && AdmittedAt(config, es, i, claims, role);
    assert (es + [x])[..i] == es[..i];
    assert AdmittedAt(config, es + [x], i, claims, role);
  }

  lemma {:induction false} OpenedByStays(config: Config, es: seq<Event>, x: Event, sid: string, parent: Parent)
    requires OpenedBy(config, es, sid, parent)
    ensures OpenedBy(config, es + [x], sid, parent)
  {
    forall e | Began(config, es, e) ensures Began(config, es + [x], e) { BeganStays(config, es, x, e); }
    hide Began;
  }

  lemma {:induction false} PhaseHistoryStays(config: Config, es: seq<Event>, x: Event, c: nat, p: Phase)
    requires PhaseHistory(config, es, c, p)
    ensures PhaseHistory(config, es + [x], c, p)
  {
    forall e | Began(config, es, e) ensures Began(config, es + [x], e) { BeganStays(config, es, x, e); }
    if p.Done? && p.answer.Validated? {
      var role: string :| Began(config, es, Validate(c, Signed(p.answer.claims), role))
                          && Admitted(config, es, c, p.answer.claims, role);
      AdmittedStays(config, es, x, c, p.answer.claims, role);
    }
    hide Began, Admitted;
  }

  /** The beginning of a call is on record once its event is. */
  lemma {:induction false} BeginsOnRecord(config: Config, es: seq<Event>, e: Event, s: State, s': State)
    requires Run(config, es) == Some(s) && Step(s, e) == Some(s') && Opens(e)
    ensures PhaseHistory(config, es + [e], e.call, s'.calls[e.call])
  {
    var more := es + [e];
    assert more[..|es|] == es && more[|es|] == e;
    if s'.calls[e.call].Issuing? || s'.calls[e.call].Checking? || s'.calls[e.call].Validating? {
      assert BeganAt(config, more, |es|);
    }
  }

  lemma {:induction false} EffectOnRecord(config: Config, es: seq<Event>, e: Event, s: State, p: Phase)
    requires Run(config, es) == Some(s) && !e.Tick? && !Opens(e) && EffectOf(s, p, e).Some?
    requires PhaseHistory(config, es + [e], e.call, p)
    ensures var f := EffectOf(s, p, e).value;
      && PhaseHistory(config, es + [e], e.call, f.phase)
      && (f.born.Some? ==> OpenedBy(config, es + [e], f.sid, f.born.value))
  {
    var more := es + [e];
    assert more[..|es|] == es && more[|es|] == e;
    if e.Exists? && p.Validating? && EffectOf(s, p, e).value.phase == Done(Validated(p.claims)) {
      assert AdmittedAt(config, more, |es|, p.claims, p.role);
    }
    hide Began, Admitted, Run, AccessLive, RefreshLive;
  }

  lemma {:induction false} RunKeepsHistory(config: Config, es: seq<Event>)
    requires Run(config, es).Some?
    ensures HistoryInv(config, es, Run(config, es).value)
  {
    if es != [] {
      var shorter, e := es[..|es| - 1], es[|es| - 1];
      var s, s' := Run(config, shorter).value, Run(config, es).value;
      RunKeepsHistory(config, shorter);
      assert es == shorter + [e];
      StepKeepsHistory(config, shorter, e, s, s');
    }
  }

  lemma {:induction false} StepKeepsHistory(config: Config, es: seq<Event>, e: Event, s: State, s': State)
    requires Run(config, es) == Some(s) && Step(s, e) == Some(s') && HistoryInv(config, es, s)
    ensures HistoryInv(config, es + [e], s')
  {
    hide PhaseHistory, OpenedBy, Run;
    forall sid | sid in s.parents ensures OpenedBy(config, es + [e], sid, s.parents[sid]) {
      OpenedByStays(config, es, e, sid, s.parents[sid]);
    }
    forall c | c in s.calls ensures PhaseHistory(config, es + [e], c, s.calls[c]) {
      PhaseHistoryStays(config, es, e, c, s.calls[c]);
    }
    if Opens(e) {
      BeginsOnRecord(config, es, e, s, s');
    } else if !e.Tick? {
      EffectOnRecord(config, es, e, s, s.calls[e.call]);
      hide EffectOf, Written, RootOf;
    }
  }

  // ----- Theorem -----

  /**
   Claims that Validate accepts: the token was unexpired when the call began, the
   access key of its session was live at the check, it has the required role, and
   its session goes back through refreshes, each with a good token of the one
   before, to a login whose credential check returned exactly this user and roles.
   */
  lemma {:induction false} AcceptedClaimsTraceToLogin(config: Config, es: seq<Event>, c: nat, claims: Claims)
    requires Run(config, es).Some?
    requires c in Run(config, es).value.calls && Run(config, es).value.calls[c] == Done(Validated(claims))
    ensures exists role: string ::
      Began(config, es, Validate(c, Signed(claims), role)) && Admitted(config, es, c, claims, role)
    ensures exists path :: Lineage(config, es, Run(config, es).value.parents, path, claims)
  {
    RunKeepsHistory(config, es);
    RunKeepsLineage(config, es);
    var s := Run(config, es).value;
    assert PhaseHistory(config, es, c, Done(Validated(claims)));
    assert PhaseDescends(s.parents, Done(Validated(claims)));
    hide Run, Began, Admitted;
    DescentIsLineage(config, es, s, claims);
  }

  /** The path of sessions behind some claims, each with how it was opened. */
  ghost predicate Lineage(config: Config, es: seq<Event>, parents: map<string, Parent>, path: seq<string>, claims: Claims) {
    && Chain(parents, path, claims.user) && path[|path| - 1] == claims.sid
    && forall i :: 0 <= i < |path| ==> path[i] in parents && OpenedBy(config, es, path[i], parents[path[i]])
  }

  lemma {:induction false} DescentIsLineage(config: Config, es: seq<Event>, s: State, claims: Claims)
    requires HistoryInv(config, es, s) && Descends(s.parents, claims.sid, claims.user)
    ensures exists path :: Lineage(config, es, s.parents, path, claims)
  {
    hide OpenedBy, PhaseHistory;
    var path :| Chain(s.parents, path, claims.user) && path[|path| - 1] == claims.sid;
    assert Lineage(config, es, s.parents, path, claims);
  }
}
