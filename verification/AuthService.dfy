/**
 The auth service in the source's own form: Login, Refresh, Logout and Validate
 as methods over the session store. Before each store call anything else may run
 (`Wait`), and time passes. The trace records every step, so each method is a
 run of the session machine and inherits its theorems.
 */
module AuthService {
  import opened Prelude
  import opened SessionMachine
  import opened Sessions
  import opened SessionLineage
  import opened SessionTimes

  datatype Lookup = Active | Inactive | StoreError

  /** What the session store does with the store calls of one service call, if it comes to them. */
  datatype Store = Store(lookup: bool, saveAccess: Fate, saveRefresh: Fate, dropAccess: Fate, dropRefresh: Fate) {
    predicate Saves() { saveAccess.Ok? && saveRefresh.Ok? }

    predicate Drops() { dropAccess.Ok? && dropRefresh.Ok? }
  }

  /** The event is a step of call `c`. */
  predicate StepOf(e: Event, c: nat) {
    !e.Tick? && e.call == c
  }

  lemma {:induction false} OthersLeaveCall(config: Config, es: seq<Event>, more: seq<Event>, c: nat)
    requires Run(config, more).Some? && es <= more && (forall i :: |es| <= i < |more| ==> !StepOf(more[i], c))
    ensures Run(config, es).Some?
    ensures var s, t := Run(config, es).value, Run(config, more).value;
      && (c in s.calls ==> c in t.calls && t.calls[c] == s.calls[c])
      && (c !in s.calls ==> c !in t.calls) && s.now <= t.now && s.delivered <= t.delivered
  {
    if |es| == |more| {
      assert es == more;
    } else {
      OthersLeaveCall(config, es, more[..|more| - 1], c);
      hide EffectOf, Begins;
    }
  }

  class AuthService {
    const config: Config

    var now: int
    var access: map<string, int>
    var refresh: map<string, int>
    var calls: map<nat, Phase>
    var parents: map<string, Parent>
    ghost var roots: map<string, string>
    ghost var delivered: set<Claims>
    ghost var trace: seq<Event>

    ghost function Snapshot(): State
      reads this
    {
      State(config, now, access, refresh, calls, parents, roots, delivered)
    }

    /** Everything that ever happened is a run of the machine, and this is where it led. */
    ghost predicate Valid() reads this { Run(config, trace) == Some(Snapshot()) }

    /** The run began with these events. */
    ghost predicate Past(es: seq<Event>) reads `trace { es <= trace }

    constructor (config: Config)
      ensures Valid() && trace == [] && this.config == config
    {
      this.config := config;
      now, access, refresh, calls, parents := 0, map[], map[], map[], map[];
      roots, delivered, trace := map[], {}, [];
    }

    lemma StepIsValid(before: State, es: seq<Event>, e: Event)
      requires Run(config, es) == Some(before) && trace == es + [e] && Step(before, e) == Some(Snapshot())
      ensures Valid() && forall past :: past <= es ==> Past(past)
    {
      hide Step;
      assert (es + [e])[..|es|] == es;
    }

    /** The step of a call, taken from a valid state, leads to a valid one. */
    lemma TookIsValid(before: State, es: seq<Event>, e: Event, f: Effect)
      requires Run(config, es) == Some(before) && trace == es + [e] && !e.Tick? && !Opens(e) && e.call in before.calls
      requires EffectOf(before, before.calls[e.call], e) == Some(f) && Snapshot() == Perform(before, e.call, f)
      ensures Valid() && forall past :: past <= es ==> Past(past)
    {
      hide EffectOf, Perform;
      StepIsValid(before, es, e);
    }

    /** Any other calls may run here, and time passes. */
    method Others(c: nat)
      requires Valid()
      modifies this
      ensures Valid() && old(trace) <= trace
      ensures forall i :: |old(trace)| <= i < |trace| ==> !StepOf(trace[i], c)
    {
    }

    /** They run; this call's own record is as it was. */
    method Wait(c: nat)
      requires Valid()
      modifies this
      ensures Valid() && (forall es :: old(Past(es)) ==> Past(es))
      ensures c in old(calls) ==> c in calls && calls[c] == old(calls[c])
      ensures c !in old(calls) ==> c !in calls
      ensures old(now) <= now && old(delivered) <= delivered
    {
      Others(c);
      OthersLeaveCall(config, old(trace), trace, c);
      hide Run;
    }

    // ----- The session store -----

    method SaveAccessSession(c: nat, sid: string, fate: Fate) returns (err: bool)
      requires Valid() && c in calls && calls[c].SavingAccess? && calls[c].pair.access.sid == sid
      modifies `access, `calls, `trace
      ensures Valid() && (forall es :: old(Past(es)) ==> Past(es))
      ensures c in calls && calls[c] == if err then Done(Failed) else SavingRefresh(old(calls[c].pair))
      ensures err <==> !fate.Ok?
      ensures access == if fate.NoEffect? then old(access) else old(access)[sid := now + config.accessTtl]
    {
      var p := calls[c];
      ghost var f := AccessSaved(p, fate).value;
      if !fate.NoEffect? { access := access[sid := now + config.accessTtl]; }
      calls := calls[c := if fate.Ok? then SavingRefresh(p.pair) else Done(Failed)];
      trace := trace + [SaveAccess(c, fate)];
      TookIsValid(old(Snapshot()), old(trace), SaveAccess(c, fate), f);
      return !fate.Ok?;
    }

    method SaveRefreshSession(c: nat, sid: string, fate: Fate) returns (err: bool)
      requires Valid() && c in calls && calls[c].SavingRefresh? && calls[c].pair.access.sid == sid
      modifies `refresh, `calls, `delivered, `trace
      ensures Valid() && (forall es :: old(Past(es)) ==> Past(es))
      ensures c in calls && calls[c] == if err then Done(Failed) else Done(Issued(old(calls[c].pair)))
      ensures err <==> !fate.Ok?
      ensures refresh == if fate.NoEffect? then old(refresh) else old(refresh)[sid := now + config.refreshTtl]
    {
      var p := calls[c];
      ghost var f := RefreshSaved(p, fate).value;
      if !fate.NoEffect? { refresh := refresh[sid := now + config.refreshTtl]; }
      if fate.Ok? { delivered := delivered + {p.pair.access, p.pair.refresh}; }
      calls := calls[c := if fate.Ok? then Done(Issued(p.pair)) else Done(Failed)];
      trace := trace + [SaveRefresh(c, fate)];
      TookIsValid(old(Snapshot()), old(trace), SaveRefresh(c, fate), f);
      return !fate.Ok?;
    }

    method RefreshSessionExists(c: nat, sid: string, up: bool) returns (r: Lookup)
      requires Valid() && c in calls && calls[c].Checking? && calls[c].claims.sid == sid
      modifies `calls, `trace
      ensures Valid() && (forall es :: old(Past(es)) ==> Past(es))
      ensures r.StoreError? <==> !up
      ensures r.Active? ==> sid in refresh && now < refresh[sid]
      ensures r.Inactive? ==> sid !in refresh || refresh[sid] <= now
      ensures c in calls && calls[c] == match r
                                        case Active => RetiringAccess(old(calls[c].claims))
                                        case Inactive => Done(InvalidToken)
                                        case StoreError => Done(Failed)
    {
      var p := calls[c];
      r := if !up then StoreError else if sid in refresh && now < refresh[sid] then Active else Inactive;
      calls := calls[c := match r
                          case Active => RetiringAccess(p.claims)
                          case Inactive => Done(InvalidToken)
                          case StoreError => Done(Failed)];
      trace := trace + [Exists(c, up)];
      TookIsValid(old(Snapshot()), old(trace), Exists(c, up), Looked(old(Snapshot()), p, up).value);
    }

    /** The lookup of Validate; what follows from it, the role check included, is decided with it. */
    method AccessSessionExists(c: nat, sid: string, up: bool) returns (r: Lookup)
      requires Valid() && c in calls && calls[c].Validating? && calls[c].claims.sid == sid
      modifies `calls, `trace
      ensures Valid() && (forall es :: old(Past(es)) ==> Past(es))
      ensures r.StoreError? <==> !up
      ensures r.Active? ==> sid in access && now < access[sid]
      ensures r.Inactive? ==> sid !in access || access[sid] <= now
      ensures c in calls && calls[c] == Done(match r
                                             case Active =>
                                               var claims, role := old(calls[c].claims), old(calls[c].role);
                                               if role != "" && role !in claims.user.roles then Forbidden
                                               else Validated(claims)
                                             case Inactive => InvalidToken
                                             case StoreError => Failed)
    {
      var p := calls[c];
      var next := Looked(State(config, now, access, refresh, calls, parents, map[], {}), p, up).value.phase;
      r := if !up then StoreError else if sid in access && now < access[sid] then Active else Inactive;
      calls := calls[c := next];
      trace := trace + [Exists(c, up)];
      TookIsValid(old(Snapshot()), old(trace), Exists(c, up), Looked(old(Snapshot()), p, up).value);
    }

    /** DEL of the access key, for Refresh and for Logout; a missing key is no error. */
    method DeleteAccessSession(c: nat, sid: string, fate: Fate) returns (err: bool)
      requires Valid() && c in calls
      requires (calls[c].RetiringAccess? && calls[c].claims.sid == sid) || (calls[c].DroppingAccess? && calls[c].sid == sid)
      modifies `access, `calls, `trace
      ensures Valid() && (forall es :: old(Past(es)) ==> Past(es))
      ensures err <==> !fate.Ok?
      ensures access == if fate.NoEffect? then old(access) else old(access) - {sid}
      ensures c in calls && calls[c] == if err then Done(Failed)
                                        else if old(calls[c].RetiringAccess?) then RetiringRefresh(old(calls[c].claims))
                                        else ClosingRefresh(old(calls[c].refresh))
    {
      var p := calls[c];
      if !fate.NoEffect? { access := access - {sid}; }
      calls := calls[c := if !fate.Ok? then Done(Failed)
                          else if p.RetiringAccess? then RetiringRefresh(p.claims) else ClosingRefresh(p.refresh)];
      trace := trace + [Delete(c, fate)];
      TookIsValid(old(Snapshot()), old(trace), Delete(c, fate), Deleted(p, fate).value);
      return !fate.Ok?;
    }

    method DeleteRefreshSession(c: nat, sid: string, fate: Fate) returns (err: bool)
      requires Valid() && c in calls
      requires (calls[c].RetiringRefresh? && calls[c].claims.sid == sid) || (calls[c].DroppingRefresh? && calls[c].sid == sid)
      modifies `refresh, `calls, `trace
      ensures Valid() && (forall es :: old(Past(es)) ==> Past(es))
      ensures err <==> !fate.Ok?
      ensures refresh == if fate.NoEffect? then old(refresh) else old(refresh) - {sid}
      ensures c in calls && calls[c] == if err then Done(Failed)
                                        else if old(calls[c].RetiringRefresh?)
                                        then Issuing(old(calls[c].claims.user), FromRefresh(sid))
                                        else Done(LoggedOut)
    {
      var p := calls[c];
      if !fate.NoEffect? { refresh := refresh - {sid}; }
      calls := calls[c := if !fate.Ok? then Done(Failed)
                          else if p.RetiringRefresh? then Issuing(p.claims.user, FromRefresh(sid)) else Done(LoggedOut)];
      trace := trace + [Delete(c, fate)];
      TookIsValid(old(Snapshot()), old(trace), Delete(c, fate), Deleted(p, fate).value);
      return !fate.Ok?;
    }

    // ----- The calls of the service -----

    /** Draw a sid and sign both tokens with the same identity, jti and issue time. */
    method Sign(c: nat) returns (pair: Pair)
      requires Valid() && c in calls && calls[c].Issuing?
      modifies `parents, `roots, `calls, `trace
      ensures Valid() && (forall es :: old(Past(es)) ==> Past(es))
      ensures c in calls && calls[c] == SavingAccess(pair) && pair.access.sid !in old(parents)
      ensures pair.access.user == pair.refresh.user == old(calls[c].user) && pair.access.sid == pair.refresh.sid
      ensures SignedAt(pair, now, config)
      ensures parents == old(parents)[pair.access.sid := old(calls[c].parent)]
    {
      var p := calls[c];
      NewClaimsFit(p.user, "", now, config.accessTtl);
      NewClaimsFit(p.user, "", now, config.refreshTtl);
      var sid := NewUUID(parents.Keys);
      pair := Pair(NewClaims(p.user, sid, now, config.accessTtl), NewClaims(p.user, sid, now, config.refreshTtl));
      calls := calls[c := SavingAccess(pair)];
      parents := parents[sid := p.parent];
      roots := roots[sid := RootOf(old(Snapshot()), sid, p.parent)];
      trace := trace + [Event.Issue(c, sid)];
      TookIsValid(old(Snapshot()), old(trace), Event.Issue(c, sid), Issuance(old(Snapshot()), p, sid).value);
    }

    /** issueTokenPair: sign, save both keys, and hand the pair out only if both saves were acknowledged. */
    method IssueTokenPair(c: nat, store: Store) returns (r: Answer)
      requires Valid() && c in calls && calls[c].Issuing?
      modifies this
      ensures Valid() && (forall es :: old(Past(es)) ==> Past(es))
      ensures c in calls && calls[c] == Done(r) && (r.Issued? || r.Failed?)
      ensures r.Issued? <==> store.Saves()
      ensures r.Issued? ==> && r.pair.access.user == r.pair.refresh.user == old(calls[c].user)
                            && r.pair.access.sid == r.pair.refresh.sid
                            && old(now) <= now && SignedAt(r.pair, old(now), config)
    {
      hide Run, Valid, Past, SignedAt;
      var pair := Sign(c);
      Wait(c);
      var err := SaveAccessSession(c, pair.access.sid, store.saveAccess);
      if err { return Failed; }
      Wait(c);
      err := SaveRefreshSession(c, pair.access.sid, store.saveRefresh);
      if err { return Failed; }
      return Issued(pair);
    }

    /** Records the beginning of a call. */
    method Begin(c: nat, ghost e: Event, p: Phase)
      requires Valid() && c !in calls && Opens(e) && e.call == c && Begins(Snapshot(), e) == Some(p)
      modifies `calls, `trace
      ensures Valid() && (forall es :: old(Past(es)) ==> Past(es))
      ensures c in calls && calls[c] == p
    {
      calls := calls[c := p];
      trace := trace + [e];
      StepIsValid(old(Snapshot()), old(trace), e);
    }

    /** The pair was signed while the call ran. */
    ghost predicate SignedSince(pair: Pair, start: int) reads `now {
      exists t :: start <= t <= now && SignedAt(pair, t, config)
    }

    /** Login; `user` is what the credential check answered, None for an error. */
    method Login(c: nat, user: Option<User>, store: Store) returns (r: Answer)
      requires Valid() && c !in calls
      modifies this
      ensures Valid() && (forall es :: old(Past(es)) ==> Past(es))
      ensures c in calls && calls[c] == Done(r) && (r.Issued? || r.Failed?)
      ensures r.Issued? <==> user.Some? && store.Saves()
      ensures r.Issued? ==> r.pair.access.user == r.pair.refresh.user == user.value && SignedSince(r.pair, old(now))
    {
      hide Run, Valid, Past, SignedAt;
      if user.None? {
        Begin(c, Event.Login(c, user), Done(Failed));
        return Failed;
      }
      Begin(c, Event.Login(c, user), Issuing(user.value, FromLogin(user.value)));
      Wait(c);
      r := IssueTokenPair(c, store);
    }

    /** At the end of this run the session was settled, and its access key was not live. */
    ghost predicate AccessGone(es: seq<Event>, sid: string) {
      Run(config, es).Some? && Settled(Run(config, es).value, sid) && !AccessLive(Run(config, es).value, sid)
    }

    ghost predicate RefreshGone(es: seq<Event>, sid: string) {
      Run(config, es).Some? && Settled(Run(config, es).value, sid) && !RefreshLive(Run(config, es).value, sid)
    }

    /** A call that has retired a session, about to issue its successor. */
    lemma RetiredNow(c: nat, sid: string)
      requires Valid() && c in calls && calls[c].Issuing? && calls[c].parent == FromRefresh(sid)
      ensures Past(trace) && AccessGone(trace, sid) && RefreshGone(trace, sid)
    {
      RunKeepsKeys(config, trace);
      assert PhaseOk(Snapshot(), calls[c]);
    }

    /** A token that was returned, and whose key is not there. */
    lemma GoneNow(claims: Claims)
      requires Valid() && claims in delivered
      ensures Past(trace)
      ensures claims.sid !in access ==> AccessGone(trace, claims.sid)
      ensures claims.sid !in refresh ==> RefreshGone(trace, claims.sid)
    {
      RunKeepsKeys(config, trace);
      assert Settled(Snapshot(), claims.sid);
    }

    lemma StillGone(es: seq<Event>, sid: string)
      requires Valid() && Past(es)
      ensures AccessGone(es, sid) ==> !AccessLive(Snapshot(), sid)
      ensures RefreshGone(es, sid) ==> !RefreshLive(Snapshot(), sid)
    {
      if AccessGone(es, sid) || RefreshGone(es, sid) {
        assert trace[..|es|] == es;
        DeadStaysDead(config, trace, |es|, sid);
      }
    }

    lemma NotLive(sid: string)
      ensures sid !in access || access[sid] <= now ==> !AccessLive(Snapshot(), sid)
      ensures sid !in refresh || refresh[sid] <= now ==> !RefreshLive(Snapshot(), sid)
    {
    }

    /** Refresh: retire the old session, both keys, before a new pair is issued to the same user. */
    method Refresh(c: nat, token: Token, store: Store) returns (r: Answer)
      requires Valid() && c !in calls && Presentable(Snapshot(), token)
      modifies this
      ensures Valid() && (forall es :: old(Past(es)) ==> Past(es))
      ensures c in calls && calls[c] == Done(r) && (r.Issued? || r.InvalidToken? || r.Failed?)
      ensures r.Issued? ==>
        && token.Signed? && old(now) < token.claims.expiresAt
        && r.pair.access.user == r.pair.refresh.user == token.claims.user && SignedSince(r.pair, old(now))
        && !AccessLive(Snapshot(), token.claims.sid) && !RefreshLive(Snapshot(), token.claims.sid)
      ensures r.InvalidToken? ==>
        !token.Signed? || token.claims.expiresAt <= old(now) || !RefreshLive(Snapshot(), token.claims.sid)
      ensures r.Failed? ==> !store.lookup || !store.Drops() || !store.Saves()
    {
      hide Run, Valid, Past, SignedAt, AccessLive, RefreshLive, AccessGone, RefreshGone;
      if !token.Signed? || token.claims.expiresAt <= now {
        Begin(c, Event.Refresh(c, token), Done(InvalidToken));
        return InvalidToken;
      }
      var claims := token.claims;
      Begin(c, Event.Refresh(c, token), Checking(claims));
      Wait(c);
      var active := RefreshSessionExists(c, claims.sid, store.lookup);
      if active.StoreError? { return Failed; }
      if active.Inactive? {
        NotLive(claims.sid);
        return InvalidToken;
      }
      Wait(c);
      var err := DeleteAccessSession(c, claims.sid, store.dropAccess);
      if err { return Failed; }
      Wait(c);
      err := DeleteRefreshSession(c, claims.sid, store.dropRefresh);
      if err { return Failed; }
      RetiredNow(c, claims.sid);
      ghost var retired := trace;
      Wait(c);
      r := IssueTokenPair(c, store);
      StillGone(retired, claims.sid);
    }

    /** Logout reads a token: the sid if it verifies and is unexpired. */
    method ReadToken(c: nat) returns (sid: Option<string>)
      requires Valid() && c in calls && (calls[c].Closing? || calls[c].ClosingRefresh?)
      modifies `calls, `trace
      ensures Valid() && (forall es :: old(Past(es)) ==> Past(es))
      ensures var t := if old(calls[c].Closing?) then old(calls[c].access) else old(calls[c].refresh);
        sid == if Parses(Snapshot(), t) then Some(t.claims.sid) else None
      ensures c in calls && calls[c] == match old(calls[c])
        case Closing(_, t) => if sid.Some? then DroppingAccess(sid.value, t) else ClosingRefresh(t)
        case p => if sid.Some? then DroppingRefresh(sid.value) else Done(LoggedOut)
    {
      var p := calls[c];
      var token := if p.Closing? then p.access else p.refresh;
      sid := if token.Signed? && now < token.claims.expiresAt then Some(token.claims.sid) else None;
      calls := calls[c := if p.Closing? && sid.Some? then DroppingAccess(sid.value, p.refresh)
                          else if p.Closing? then ClosingRefresh(p.refresh)
                          else if sid.Some? then DroppingRefresh(sid.value) else Done(LoggedOut)];
      trace := trace + [Parse(c)];
      TookIsValid(old(Snapshot()), old(trace), Parse(c), Parsed(old(Snapshot()), p).value);
    }

    /** This token passes neither check of a session with its access key, or is past its time. */
    ghost predicate NoAccess(t: Token) reads this {
      !Parses(Snapshot(), t) || !AccessLive(Snapshot(), t.claims.sid)
    }

    ghost predicate NoRefresh(t: Token) reads this {
      !Parses(Snapshot(), t) || !RefreshLive(Snapshot(), t.claims.sid)
    }

    /** The first half of Logout: the access key. */
    method DropAccess(c: nat, token: Token, refreshToken: Token, fate: Fate) returns (err: bool)
      requires Valid() && c in calls && calls[c] == Closing(token, refreshToken) && Presentable(Snapshot(), token)
      modifies this
      ensures Valid() && (forall es :: old(Past(es)) ==> Past(es)) && old(now) <= now && old(delivered) <= delivered
      ensures c in calls && calls[c] == if err then Done(Failed) else ClosingRefresh(refreshToken)
      ensures fate.Ok? ==> !err
      ensures !err && token.Signed? ==> token.claims.expiresAt <= now || (Past(trace) && AccessGone(trace, token.claims.sid))
    {
      hide Run, Valid, Past, AccessGone, RefreshGone;
      var sid := ReadToken(c);
      if sid.None? { return false; }
      Wait(c);
      err := DeleteAccessSession(c, sid.value, fate);
      if !err { GoneNow(token.claims); }
    }

    method DropRefresh(c: nat, token: Token, fate: Fate) returns (err: bool)
      requires Valid() && c in calls && calls[c] == ClosingRefresh(token) && Presentable(Snapshot(), token)
      modifies this
      ensures Valid() && (forall es :: old(Past(es)) ==> Past(es)) && old(now) <= now && old(delivered) <= delivered
      ensures c in calls && calls[c] == if err then Done(Failed) else Done(LoggedOut)
      ensures fate.Ok? ==> !err
      ensures !err && token.Signed? ==> token.claims.expiresAt <= now || (Past(trace) && RefreshGone(trace, token.claims.sid))
    {
      hide Run, Valid, Past, AccessGone, RefreshGone;
      var sid := ReadToken(c);
      if sid.None? { return false; }
      Wait(c);
      err := DeleteRefreshSession(c, sid.value, fate);
      if !err { GoneNow(token.claims); }
    }

    /** Logout: Validate then refuses this access token, and Refresh this refresh token; keys that are gone stay gone. */
    method Logout(c: nat, accessToken: Token, refreshToken: Token, store: Store) returns (r: Answer)
      requires Valid() && c !in calls && Presentable(Snapshot(), accessToken) && Presentable(Snapshot(), refreshToken)
      modifies this
      ensures Valid() && (forall es :: old(Past(es)) ==> Past(es))
      ensures c in calls && calls[c] == Done(r) && (r.LoggedOut? || r.Failed?)
      ensures r.LoggedOut? ==> NoAccess(accessToken) && NoRefresh(refreshToken)
      ensures store.Drops() ==> r.LoggedOut?
    {
      hide Run, Valid, Past, AccessLive, RefreshLive, AccessGone, RefreshGone;
      Begin(c, Event.Logout(c, accessToken, refreshToken), Closing(accessToken, refreshToken));
      Wait(c);
      var err := DropAccess(c, accessToken, refreshToken, store.dropAccess);
      if err { return Failed; }
      ghost var dropped := trace;
      Wait(c);
      err := DropRefresh(c, refreshToken, store.dropRefresh);
      if err { return Failed; }
      if accessToken.Signed? && now < accessToken.claims.expiresAt { StillGone(dropped, accessToken.claims.sid); }
      if refreshToken.Signed? && now < refreshToken.claims.expiresAt { StillGone(trace, refreshToken.claims.sid); }
      return LoggedOut;
    }

    /**
     Validate. Accepted claims are those of the token, bear the required role, and
     go back through refreshes to one login of exactly this user and these roles.
     */
    method Validate(c: nat, token: Token, role: string, up: bool) returns (r: Answer)
      requires Valid() && c !in calls && Presentable(Snapshot(), token)
      modifies this
      ensures Valid() && (forall es :: old(Past(es)) ==> Past(es))
      ensures c in calls && calls[c] == Done(r) && (r.Validated? || r.InvalidToken? || r.Forbidden? || r.Failed?)
      ensures r.Validated? ==>
        && token == Signed(r.claims) && old(now) < r.claims.expiresAt && AccessLive(Snapshot(), r.claims.sid)
        && (role != "" ==> role in r.claims.user.roles)
        && exists path :: Lineage(config, trace, parents, path, r.claims)
      ensures r.InvalidToken? ==>
        !token.Signed? || token.claims.expiresAt <= old(now) || !AccessLive(Snapshot(), token.claims.sid)
      ensures r.Forbidden? ==> token.Signed? && role != "" && role !in token.claims.user.roles
      ensures r.Failed? ==> !up
    {
      hide Run, Valid, Past, Lineage;
      if !token.Signed? || token.claims.expiresAt <= now {
        Begin(c, Event.Validate(c, token, role), Done(InvalidToken));
        return InvalidToken;
      }
      var claims := token.claims;
      Begin(c, Event.Validate(c, token, role), Validating(claims, role));
      Wait(c);
      var active := AccessSessionExists(c, claims.sid, up);
      if active.StoreError? { return Failed; }
      if active.Inactive? { return InvalidToken; }
      if role != "" && role !in claims.user.roles { return Forbidden; }
      HasLineage(c, claims);
      return Validated(claims);
    }

    lemma HasLineage(c: nat, claims: Claims)
      requires Valid() && c in calls && calls[c] == Done(Validated(claims))
      ensures exists path :: Lineage(config, trace, parents, path, claims)
    {
      AcceptedClaimsTraceToLogin(config, trace, c, claims);
    }
  }
}
