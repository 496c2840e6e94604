/**
 Login, refresh, logout and validation as one concurrent machine over the
 session store. Signatures are symbolic: a token either carries claims that the
 service signed, or does not verify. Every store call has a fate, time passes
 between steps, and keys expire. Instants and durations are in nanoseconds.
 */
module SessionMachine {
  import opened Prelude

  const SECOND := 1_000_000_000

  datatype Config = Config(accessTtl: int, refreshTtl: int)

  datatype User = User(id: string, roles: seq<string>)

  /** `sid` is the jti claim; `expiresAt` is exp, in whole seconds. */
  datatype Claims = Claims(user: User, sid: string, issuedAt: int, expiresAt: int)

  /** Access and refresh tokens are made alike, and nothing in a token tells which it is. */
  datatype Token = Signed(claims: Claims) | Unverifiable

  datatype Pair = Pair(access: Claims, refresh: Claims)

  /** Where a session came from. */
  datatype Parent = FromLogin(user: User) | FromRefresh(sid: string)

  datatype Answer = Issued(pair: Pair) | Validated(claims: Claims) | LoggedOut | InvalidToken | Forbidden | Failed

  datatype Phase =
    | Issuing(user: User, parent: Parent)
    | SavingAccess(pair: Pair)
    | SavingRefresh(pair: Pair)
    | Checking(claims: Claims)
    | RetiringAccess(claims: Claims)
    | RetiringRefresh(claims: Claims)
    | Closing(access: Token, refresh: Token)
    | DroppingAccess(sid: string, refresh: Token)
    | ClosingRefresh(refresh: Token)
    | DroppingRefresh(sid: string)
    | Validating(claims: Claims, role: string)
    | Done(answer: Answer)

  /** Keys with the time they expire at. `parents`, `roots` and `delivered` record what happened. */
  datatype State = State(
    config: Config,
    now: int,
    access: map<string, int>,
    refresh: map<string, int>,
    calls: map<nat, Phase>,
    parents: map<string, Parent>,
    roots: map<string, string>,
    delivered: set<Claims>)

  function Init(config: Config): State {
    State(config, 0, map[], map[], map[], map[], map[], {})
  }

  datatype Event =
    | Tick(passed: nat)
    | Login(call: nat, user: Option<User>)
    | Refresh(call: nat, token: Token)
    | Logout(call: nat, access: Token, refreshToken: Token)
    | Validate(call: nat, token: Token, role: string)
    | Issue(call: nat, sid: string)
    | SaveAccess(call: nat, fate: Fate)
    | SaveRefresh(call: nat, fate: Fate)
    | Exists(call: nat, up: bool)
    | Delete(call: nat, fate: Fate)
    | Parse(call: nat)

  // ----- Tokens and keys -----

  /** Only tokens that a call has returned can come back with a valid signature. */
  predicate Presentable(s: State, t: Token) {
    t.Signed? ==> t.claims in s.delivered
  }

  /** The signature verifies and the token is unexpired. */
  predicate Parses(s: State, t: Token) {
    t.Signed? && s.now < t.claims.expiresAt
  }

  predicate AccessLive(s: State, sid: string) {
    sid in s.access && s.now < s.access[sid]
  }

  predicate RefreshLive(s: State, sid: string) {
    sid in s.refresh && s.now < s.refresh[sid]
  }

  function NewClaims(user: User, sid: string, now: int, ttl: int): Claims {
    Claims(user, sid, now / SECOND * SECOND, (now + ttl) / SECOND * SECOND)
  }

  // ----- Steps of calls -----

  datatype Write = Keep | Put | Drop

  /** What one step does: the next phase, writes to the keys of one sid, a new session, a returned pair. */
  datatype Effect = Effect(
    phase: Phase, sid: string, access: Write, refresh: Write, born: Option<Parent>, returned: Option<Pair>)

  function To(phase: Phase): Effect {
    Effect(phase, "", Keep, Keep, None, None)
  }

  function Written(keys: map<string, int>, sid: string, write: Write, expiry: int): map<string, int> {
    match write
    case Keep => keys
    case Put => keys[sid := expiry]
    case Drop => keys - {sid}
  }

  function RootOf(s: State, sid: string, parent: Parent): string {
    if parent.FromRefresh? && parent.sid in s.roots then s.roots[parent.sid] else sid
  }

  function Perform(s: State, c: nat, f: Effect): State {
    s.(access := Written(s.access, f.sid, f.access, s.now + s.config.accessTtl),
       refresh := Written(s.refresh, f.sid, f.refresh, s.now + s.config.refreshTtl),
       calls := s.calls[c := f.phase],
       parents := if f.born.Some? then s.parents[f.sid := f.born.value] else s.parents,
       roots := if f.born.Some? then s.roots[f.sid := RootOf(s, f.sid, f.born.value)] else s.roots,
       delivered := if f.returned.Some? then s.delivered + {f.returned.value.access, f.returned.value.refresh}
                    else s.delivered)
  }

  /** Draw a sid and sign both tokens. */
  function Issuance(s: State, p: Phase, sid: string): Option<Effect> {
    if !p.Issuing? || sid in s.parents then None
    else
      var pair := Pair(NewClaims(p.user, sid, s.now, s.config.accessTtl),
                       NewClaims(p.user, sid, s.now, s.config.refreshTtl));
      Some(Effect(SavingAccess(pair), sid, Keep, Keep, Some(p.parent), None))
  }

  function AccessSaved(p: Phase, fate: Fate): Option<Effect> {
    if !p.SavingAccess? then None
    else
      Some(Effect(if fate.Ok? then SavingRefresh(p.pair) else Done(Failed),
                  p.pair.access.sid, if fate.NoEffect? then Keep else Put, Keep, None, None))
  }

  function RefreshSaved(p: Phase, fate: Fate): Option<Effect> {
    if !p.SavingRefresh? then None
    else
      Some(Effect(if fate.Ok? then Done(Issued(p.pair)) else Done(Failed),
                  p.pair.access.sid, Keep, if fate.NoEffect? then Keep else Put,
                  None, if fate.Ok? then Some(p.pair) else None))
  }

  /** The session check of Refresh and of Validate. */
  function Looked(s: State, p: Phase, up: bool): Option<Effect> {
    match p
    case Checking(claims) =>
      Some(To(if !up then Done(Failed)
              else if !RefreshLive(s, claims.sid) then Done(InvalidToken)
              else RetiringAccess(claims)))
    case Validating(claims, role) =>
      Some(To(if !up then Done(Failed)
              else if !AccessLive(s, claims.sid) then Done(InvalidToken)
              else if role != "" && role !in claims.user.roles then Done(Forbidden)
              else Done(Validated(claims))))
    case _ => None
  }

  function Deleted(p: Phase, fate: Fate): Option<Effect> {
    var write := if fate.NoEffect? then Keep else Drop;
    match p
    case RetiringAccess(claims) =>
      Some(Effect(if fate.Ok? then RetiringRefresh(claims) else Done(Failed), claims.sid, write, Keep, None, None))
    case RetiringRefresh(claims) =>
      Some(Effect(if fate.Ok? then Issuing(claims.user, FromRefresh(claims.sid)) else Done(Failed),
                  claims.sid, Keep, write, None, None))
    case DroppingAccess(sid, token) =>
      Some(Effect(if fate.Ok? then ClosingRefresh(token) else Done(Failed), sid, write, Keep, None, None))
    case DroppingRefresh(sid) =>
      Some(Effect(if fate.Ok? then Done(LoggedOut) else Done(Failed), sid, Keep, write, None, None))
    case _ => None
  }

  /** Logout reads its tokens one after the other; one that does not parse has no session to delete. */
  function Parsed(s: State, p: Phase): Option<Effect> {
    match p
    case Closing(access, token) =>
      Some(To(if Parses(s, access) then DroppingAccess(access.claims.sid, token) else ClosingRefresh(token)))
    case ClosingRefresh(token) =>
      Some(To(if Parses(s, token) then DroppingRefresh(token.claims.sid) else Done(LoggedOut)))
    case _ => None
  }

  function EffectOf(s: State, p: Phase, e: Event): Option<Effect> {
    match e
    case Issue(_, sid) => Issuance(s, p, sid)
    case SaveAccess(_, fate) => AccessSaved(p, fate)
    case SaveRefresh(_, fate) => RefreshSaved(p, fate)
    case Exists(_, up) => Looked(s, p, up)
    case Delete(_, fate) => Deleted(p, fate)
    case Parse(_) => Parsed(s, p)
    case _ => None
  }

  // ----- New calls, and runs -----

  /** How a call begins; a token that does not parse is refused at once. */
  function Begins(s: State, e: Event): Option<Phase> {
    match e
    case Login(_, user) => Some(if user.Some? then Issuing(user.value, FromLogin(user.value)) else Done(Failed))
    case Refresh(_, t) =>
      if !Presentable(s, t) then None
      else Some(if Parses(s, t) then Checking(t.claims) else Done(InvalidToken))
    case Logout(_, a, t) => if Presentable(s, a) && Presentable(s, t) then Some(Closing(a, t)) else None
    case Validate(_, t, role) =>
      if !Presentable(s, t) then None
      else Some(if Parses(s, t) then Validating(t.claims, role) else Done(InvalidToken))
    case _ => None
  }

  predicate Opens(e: Event) {
    e.Login? || e.Refresh? || e.Logout? || e.Validate?
  }

  function Step(s: State, e: Event): Option<State> {
    if e.Tick? then Some(s.(now := s.now + e.passed))
    else if Opens(e) then
      var p := Begins(s, e);
      if e.call in s.calls || p.None? then None else Some(s.(calls := s.calls[e.call := p.value]))
    else if e.call !in s.calls then None
    else
      var f := EffectOf(s, s.calls[e.call], e);
      if f.None? then None else Some(Perform(s, e.call, f.value))
  }

  function Run(config: Config, es: seq<Event>): Option<State> {
    if es == [] then Some(Init(config))
    else
      var before := Run(config, es[..|es| - 1]);
      if before.None? then None else Step(before.value, es[|es| - 1])
  }
}
