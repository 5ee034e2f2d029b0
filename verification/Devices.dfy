/** Pairing codes, device sessions and their rotation and revocation. */
module Devices {
  import opened Common

  datatype CodeRow = CodeRow(owner: nat, expiresAt: int, usedAt: Option<int>)

  datatype DeviceRow = DeviceRow(owner: nat, revokedAt: Option<int>)

  /** A row of the shared session table; a browser session has no device. */
  datatype SessionRow = SessionRow(
    device: Option<nat>,
    jti: nat,
    refreshHash: Digest<nat>,
    createdAt: int,
    accessExpiresAt: int,
    refreshExpiresAt: int,
    refreshUsedAt: Option<int>,
    revokedAt: Option<int>)

  /** Claims of a signed device access token. */
  datatype Claims = Claims(device: nat, owner: nat, session: nat, jti: nat, issuedAt: int, expiresAt: int)

  datatype TokenPair = TokenPair(access: Claims, refresh: nat)

  datatype Locator = Locator(hash: Digest<nat>, session: nat, device: nat)

  /** fresh counts every id and token ever drawn, so nothing is drawn twice. */
  datatype State = State(
    activeOwners: set<nat>,
    codes: map<Digest<nat>, CodeRow>,
    devices: map<nat, DeviceRow>,
    sessions: map<nat, SessionRow>,
    located: map<nat, Locator>,
    drawn: nat,
    clock: int)

  const ACCESS_SECONDS := 7200
  const REFRESH_SECONDS := 1209600
  const CODE_SECONDS := 600

  // ----- the transactions -----

  predicate CodeUsable(s: State, hash: Digest<nat>, projectsActive: bool) {
    && hash in s.codes
    && s.codes[hash].usedAt.None?
    && s.clock < s.codes[hash].expiresAt
    && s.codes[hash].owner in s.activeOwners
    && projectsActive
  }

  /** A new session of a device, with the next session id, token id and refresh token. */
  function NewSession(s: State, device: nat, owner: nat): (State, TokenPair) {
    var row := SessionRow(Some(device), s.drawn + 1, Sha256(s.drawn + 2), s.clock, s.clock + ACCESS_SECONDS,
                          s.clock + REFRESH_SECONDS, None, None);
    (s.(sessions := s.sessions[s.drawn := row], drawn := s.drawn + 3),
     TokenPair(Claims(device, owner, s.drawn, s.drawn + 1, s.clock, s.clock + ACCESS_SECONDS), s.drawn + 2))
  }

  function CodeIssued(s: State, owner: nat): (State, Option<nat>) {
    if owner !in s.activeOwners then (s, None)
    else
      (s.(codes := s.codes[Sha256(s.drawn) := CodeRow(owner, s.clock + CODE_SECONDS, None)], drawn := s.drawn + 1),
       Some(s.drawn))
  }

  function Paired(s: State, hash: Digest<nat>, projectsActive: bool): (State, Option<TokenPair>) {
    if !CodeUsable(s, hash, projectsActive) then (s, None)
    else
      var owner := s.codes[hash].owner;
      var t := s.(codes := s.codes[hash := s.codes[hash].(usedAt := Some(s.clock))],
                  devices := s.devices[s.drawn := DeviceRow(owner, None)],
                  drawn := s.drawn + 1);
      var made := NewSession(t, s.drawn, owner);
      (made.0, Some(made.1))
  }

  /** The unlocked lookup a refresh begins with. */
  predicate Locates(s: State, hash: Digest<nat>, session: nat) {
    && session in s.sessions
    && s.sessions[session].refreshHash == hash
    && s.sessions[session].device.Some?
    && s.sessions[session].device.value in s.devices
  }

  /** The checks a refresh repeats under the locks of owner, device and session. */
  predicate Refreshable(s: State, l: Locator) {
    && l.device in s.devices
    && s.devices[l.device].owner in s.activeOwners
    && s.devices[l.device].revokedAt.None?
    && l.session in s.sessions
    && s.sessions[l.session].refreshHash == l.hash
    && s.sessions[l.session].device == Some(l.device)
    && s.sessions[l.session].refreshUsedAt.None?
    && s.sessions[l.session].revokedAt.None?
    && s.clock < s.sessions[l.session].refreshExpiresAt
  }

  function Refreshed(s: State, l: Locator): (State, Option<TokenPair>) {
    if !Refreshable(s, l) then (s, None)
    else
      var used := s.sessions[l.session].(refreshUsedAt := Some(s.clock), revokedAt := Some(s.clock));
      var made := NewSession(s.(sessions := s.sessions[l.session := used]), l.device, s.devices[l.device].owner);
      (made.0, Some(made.1))
  }

  function RevokedSession(row: SessionRow, device: nat, now: int): SessionRow {
    if row.device == Some(device) && row.revokedAt.None? then row.(revokedAt := Some(now)) else row
  }

  function Revoked(s: State, owner: nat, device: nat): State {
    if !(owner in s.activeOwners && device in s.devices && s.devices[device].owner == owner
         && s.devices[device].revokedAt.None?) then s
    else
      s.(devices := s.devices[device := s.devices[device].(revokedAt := Some(s.clock))],
         sessions := map k | k in s.sessions :: RevokedSession(s.sessions[k], device, s.clock))
  }

  predicate Authenticates(s: State, c: Claims) {
    && c.owner in s.activeOwners
    && c.device in s.devices
    && s.devices[c.device].owner == c.owner
    && s.devices[c.device].revokedAt.None?
    && c.session in s.sessions
    && s.sessions[c.session].device == Some(c.device)
    && s.sessions[c.session].jti == c.jti
    && s.sessions[c.session].revokedAt.None?
    && s.sessions[c.session].createdAt == c.issuedAt
    && s.sessions[c.session].accessExpiresAt == c.expiresAt
    && c.issuedAt <= s.clock < c.expiresAt
  }

  // ----- the service in its own form -----

  class DeviceTables {
    var activeOwners: set<nat>
    var codes: map<Digest<nat>, CodeRow>
    var devices: map<nat, DeviceRow>
    var sessions: map<nat, SessionRow>
    var located: map<nat, Locator>
    var drawn: nat
    var clock: int

    function Value(): State
      reads this
    {
      State(activeOwners, codes, devices, sessions, located, drawn, clock)
    }

    method Pair(rawCode: nat, projectsActive: bool) returns (pair: Option<TokenPair>)
      modifies this
      ensures (Value(), pair) == Paired(old(Value()), Sha256(rawCode), projectsActive)
    {
      var hash := Sha256(rawCode);
      if hash !in codes || codes[hash].usedAt.Some? || clock >= codes[hash].expiresAt {
        return None;
      }
      var owner := codes[hash].owner;
      if owner !in activeOwners || !projectsActive {
        return None;
      }
      codes := codes[hash := codes[hash].(usedAt := Some(clock))];
      var device := drawn;
      devices := devices[device := DeviceRow(owner, None)];
      drawn := drawn + 1;
      var made := IssueSession(device, owner);
      pair := Some(made);
    }

    method IssueSession(device: nat, owner: nat) returns (pair: TokenPair)
      modifies this
      ensures (Value(), pair) == NewSession(old(Value()), device, owner)
    {
      var session, jti, refresh := drawn, drawn + 1, drawn + 2;
      var issuedAt := clock;
      var expiresAt := issuedAt + ACCESS_SECONDS;
      var row := SessionRow(Some(device), jti, Sha256(refresh), issuedAt, expiresAt, issuedAt + REFRESH_SECONDS, None,
                            None);
      sessions := sessions[session := row];
      drawn := drawn + 3;
      pair := TokenPair(Claims(device, owner, session, jti, issuedAt, expiresAt), refresh);
    }

    method Refresh(l: Locator) returns (pair: Option<TokenPair>)
      modifies this
      ensures (Value(), pair) == Refreshed(old(Value()), l)
    {
      if l.device !in devices || l.session !in sessions {
        return None;
      }
      var device, current := devices[l.device], sessions[l.session];
      if device.owner !in activeOwners || device.revokedAt.Some?
         || current.refreshHash != l.hash || current.device != Some(l.device)
         || current.refreshUsedAt.Some? || current.revokedAt.Some?
         || clock >= current.refreshExpiresAt {
        return None;
      }
      current := current.(refreshUsedAt := Some(clock));
      current := current.(revokedAt := Some(clock));
      sessions := sessions[l.session := current];
      var made := IssueSession(l.device, device.owner);
      pair := Some(made);
    }

    /** Revokes the device and, one row at a time, every session of it that is still open. */
    method Revoke(owner: nat, device: nat)
      modifies this
      ensures Value() == Revoked(old(Value()), owner, device)
    {
      if owner !in activeOwners || device !in devices || devices[device].owner != owner {
        return;
      }
      if devices[device].revokedAt.Some? {
        return;
      }
      var todo := set k | k in sessions && sessions[k].device == Some(device);
      devices := devices[device := devices[device].(revokedAt := Some(clock))];
      ghost var before := sessions;
      while todo != {}
        invariant todo <= set k | k in before && before[k].device == Some(device)
        invariant sessions.Keys == before.Keys
        invariant forall k :: k in before ==>
                    sessions[k] == if k in todo then before[k] else RevokedSession(before[k], device, clock)
        invariant devices == old(devices)[device := old(devices)[device].(revokedAt := Some(clock))]
        invariant Value() == old(Value()).(devices := devices, sessions := sessions)
        decreases todo
      {
        var k :| k in todo;
        todo := todo - {k};
        if sessions[k].revokedAt.None? {
          sessions := sessions[k := sessions[k].(revokedAt := Some(clock))];
        }
      }
      assert sessions == map k | k in before :: RevokedSession(before[k], device, clock);
    }
  }

  // ----- runs -----

  datatype Event =
    | SetOwner(owner: nat, active: bool)
    | IssueCode(owner: nat)
    | PairDevice(hash: Digest<nat>, projectsActive: bool)
    | Locate(call: nat, hash: Digest<nat>, session: nat)
    | RefreshSession(call: nat)
    | RevokeDevice(owner: nat, device: nat)
    | BrowserSession
    | CloseBrowserSession(session: nat)
    | Tick(now: int)

  const EMPTY := State({}, map[], map[], map[], map[], 0, 0)

  predicate Enabled(s: State, e: Event) {
    match e
    case Locate(call, hash, session) => call !in s.located && Locates(s, hash, session)
    case RefreshSession(call) => call in s.located
    case CloseBrowserSession(k) => k in s.sessions && s.sessions[k].device.None?
    case Tick(now) => s.clock <= now
    case _ => true
  }

  function BrowserRow(s: State): SessionRow {
    SessionRow(None, s.drawn + 1, Sha256(s.drawn + 2), s.clock, s.clock + ACCESS_SECONDS, s.clock + REFRESH_SECONDS,
               None, None)
  }

  function Apply(s: State, e: Event): State
    requires Enabled(s, e)
  {
    match e
    case SetOwner(owner, active) =>
      s.(activeOwners := if active then s.activeOwners + {owner} else s.activeOwners - {owner})
    case IssueCode(owner) => CodeIssued(s, owner).0
    case PairDevice(hash, projectsActive) => Paired(s, hash, projectsActive).0
    case Locate(call, hash, session) =>
      s.(located := s.located[call := Locator(hash, session, s.sessions[session].device.value)])
    case RefreshSession(call) => Refreshed(s, s.located[call]).0.(located := s.located - {call})
    case RevokeDevice(owner, device) => Revoked(s, owner, device)
    case BrowserSession => s.(sessions := s.sessions[s.drawn := BrowserRow(s)], drawn := s.drawn + 3)
    case CloseBrowserSession(k) => s.(sessions := s.sessions[k := s.sessions[k].(revokedAt := Some(s.clock))])
    case Tick(now) => s.(clock := now)
  }

  predicate Live(s: State, k: nat, device: nat) {
    k in s.sessions && s.sessions[k].device == Some(device) && s.sessions[k].revokedAt.None?
  }

  /** Nothing carries a number that was not drawn. */
  ghost predicate Numbered(s: State) {
    && (forall k :: k in s.sessions ==> k < s.drawn && s.sessions[k].refreshHash.preimage < s.drawn)
    && (forall d :: d in s.devices ==> d < s.drawn)
    && (forall h :: h in s.codes ==> h.preimage < s.drawn)
    && (forall k :: k in s.sessions && s.sessions[k].device.Some? ==> s.sessions[k].device.value in s.devices)
  }

  /** A refresh token belongs to one session and is no pairing code. */
  ghost predicate TokensDistinct(s: State) {
    && (forall k, l :: k in s.sessions && l in s.sessions && s.sessions[k].refreshHash == s.sessions[l].refreshHash ==>
          k == l)
    && (forall k :: k in s.sessions ==> s.sessions[k].refreshHash !in s.codes)
  }

  /** One live session per device, and none for a revoked device. */
  ghost predicate OneLive(s: State) {
    && (forall d, k, l :: Live(s, k, d) && Live(s, l, d) ==> k == l)
    && (forall d, k :: Live(s, k, d) ==> d in s.devices && s.devices[d].revokedAt.None?)
  }

  ghost predicate Inv(s: State) {
    Numbered(s) && TokensDistinct(s) && OneLive(s)
  }

  /** What a session was issued with. */
  predicate SameCredentials(x: SessionRow, y: SessionRow) {
    && y.device == x.device && y.jti == x.jti && y.refreshHash == x.refreshHash && y.createdAt == x.createdAt
    && y.accessExpiresAt == x.accessExpiresAt && y.refreshExpiresAt == x.refreshExpiresAt
  }

  predicate CodeAdvances(x: CodeRow, y: CodeRow) {
    y.owner == x.owner && y.expiresAt == x.expiresAt && (x.usedAt.Some? ==> y.usedAt.Some?)
  }

  predicate DeviceAdvances(x: DeviceRow, y: DeviceRow) {
    y.owner == x.owner && (x.revokedAt.Some? ==> y == x)
  }

  predicate SessionAdvances(x: SessionRow, y: SessionRow) {
    && SameCredentials(x, y)
    && (x.refreshUsedAt.Some? ==> y.refreshUsedAt.Some?)
    && (x.revokedAt.Some? ==> y.revokedAt.Some?)
  }

  /** Nothing that was used, revoked or drawn is ever undone. */
  ghost predicate Advances(s: State, t: State) {
    && s.drawn <= t.drawn && s.clock <= t.clock
    && (forall h :: h in s.codes ==> h in t.codes && CodeAdvances(s.codes[h], t.codes[h]))
    && (forall d :: d in s.devices ==> d in t.devices && DeviceAdvances(s.devices[d], t.devices[d]))
    && (forall k :: k in s.sessions ==> k in t.sessions && SessionAdvances(s.sessions[k], t.sessions[k]))
  }

  lemma AdvancesTransitive(s: State, t: State, u: State)
    requires Advances(s, t) && Advances(t, u)
    ensures Advances(s, u)
  {
    forall h | h in s.codes ensures h in u.codes && CodeAdvances(s.codes[h], u.codes[h]) {
      assert CodeAdvances(s.codes[h], t.codes[h]) && CodeAdvances(t.codes[h], u.codes[h]);
    }
    forall d | d in s.devices ensures d in u.devices && DeviceAdvances(s.devices[d], u.devices[d]) {
      assert DeviceAdvances(s.devices[d], t.devices[d]) && DeviceAdvances(t.devices[d], u.devices[d]);
    }
    forall k | k in s.sessions ensures k in u.sessions && SessionAdvances(s.sessions[k], u.sessions[k]) {
      assert SessionAdvances(s.sessions[k], t.sessions[k]) && SessionAdvances(t.sessions[k], u.sessions[k]);
    }
  }

  lemma RevokeAdvances(s: State, owner: nat, device: nat)
    ensures Advances(s, Revoked(s, owner, device))
  {
  }

  lemma PairAdvances(s: State, hash: Digest<nat>, projectsActive: bool)
    requires Inv(s)
    ensures Advances(s, Paired(s, hash, projectsActive).0)
  {
  }

  lemma RefreshAdvances(s: State, at: Locator)
    requires Inv(s)
    ensures Advances(s, Refreshed(s, at).0)
  {
  }

  lemma StepAdvances(s: State, e: Event)
    requires Inv(s) && Enabled(s, e)
    ensures Advances(s, Apply(s, e))
  {
    match e
    case PairDevice(hash, projectsActive) => PairAdvances(s, hash, projectsActive);
    case RefreshSession(call) => RefreshAdvances(s, s.located[call]);
    case RevokeDevice(owner, device) => RevokeAdvances(s, owner, device);
    case _ =>
  }

  lemma NumbersStep(s: State, e: Event)
    requires Numbered(s) && Enabled(s, e)
    ensures Numbered(Apply(s, e))
  {
  }

  lemma PairKeepsTokens(s: State, hash: Digest<nat>, projectsActive: bool)
    requires Numbered(s) && TokensDistinct(s)
    ensures TokensDistinct(Paired(s, hash, projectsActive).0)
  {
  }

  lemma RefreshKeepsTokens(s: State, at: Locator)
    requires Numbered(s) && TokensDistinct(s)
    ensures TokensDistinct(Refreshed(s, at).0)
  {
  }

  lemma TokensStep(s: State, e: Event)
    requires Numbered(s) && TokensDistinct(s) && Enabled(s, e)
    ensures TokensDistinct(Apply(s, e))
  {
    match e
    case PairDevice(hash, projectsActive) => PairKeepsTokens(s, hash, projectsActive);
    case RefreshSession(call) => RefreshKeepsTokens(s, s.located[call]);
    case _ =>
  }

  lemma NewSessionIsAlone(s: State, device: nat, owner: nat)
    requires Numbered(s) && OneLive(s)
    requires device in s.devices && s.devices[device].revokedAt.None?
    requires forall k :: !Live(s, k, device)
    ensures OneLive(NewSession(s, device, owner).0)
  {
    var t := NewSession(s, device, owner).0;
    forall d, k | Live(t, k, d) ensures if k == s.drawn then d == device else Live(s, k, d) {
    }
  }

  lemma FewerLive(s: State, t: State)
    requires OneLive(s)
    requires forall d, k :: Live(t, k, d) ==> Live(s, k, d)
    requires forall d, k :: Live(t, k, d) ==> d in t.devices && t.devices[d].revokedAt.None?
    ensures OneLive(t)
  {
  }

  lemma PairKeepsOneLive(s: State, hash: Digest<nat>, projectsActive: bool)
    requires Inv(s) && CodeUsable(s, hash, projectsActive)
    ensures OneLive(Paired(s, hash, projectsActive).0)
  {
    var owner := s.codes[hash].owner;
    var t := s.(codes := s.codes[hash := s.codes[hash].(usedAt := Some(s.clock))],
                devices := s.devices[s.drawn := DeviceRow(owner, None)],
                drawn := s.drawn + 1);
    assert forall d, k :: Live(t, k, d) ==> Live(s, k, d);
    FewerLive(s, t);
    NewSessionIsAlone(t, s.drawn, owner);
  }

  lemma RefreshKeepsOneLive(s: State, l: Locator)
    requires Inv(s) && Refreshable(s, l)
    ensures OneLive(Refreshed(s, l).0)
  {
    var used := s.sessions[l.session].(refreshUsedAt := Some(s.clock), revokedAt := Some(s.clock));
    var t := s.(sessions := s.sessions[l.session := used]);
    assert Live(s, l.session, l.device);
    assert forall d, k :: Live(t, k, d) ==> Live(s, k, d) && k != l.session;
    FewerLive(s, t);
    NewSessionIsAlone(t, l.device, s.devices[l.device].owner);
  }

  lemma OneLiveStep(s: State, e: Event)
    requires Inv(s) && Enabled(s, e)
    ensures OneLive(Apply(s, e))
  {
    var t := Apply(s, e);
    if e.PairDevice? && CodeUsable(s, e.hash, e.projectsActive) {
      PairKeepsOneLive(s, e.hash, e.projectsActive);
    } else if e.RefreshSession? && Refreshable(s, s.located[e.call]) {
      RefreshKeepsOneLive(s, s.located[e.call]);
      assert forall d, k :: Live(t, k, d) ==> Live(Refreshed(s, s.located[e.call]).0, k, d);
    } else {
      assert forall d, k :: Live(t, k, d) ==> Live(s, k, d);
      FewerLive(s, t);
    }
  }

  ghost predicate IsRun(states: seq<State>, events: seq<Event>) {
    && |states| == |events| + 1
    && states[0] == EMPTY
    && forall i :: 0 <= i < |events| ==> Enabled(states[i], events[i]) && states[i + 1] == Apply(states[i], events[i])
  }

  lemma {:induction false} ReachableInv(states: seq<State>, events: seq<Event>, i: nat)
    requires IsRun(states, events) && i < |states|
    ensures Inv(states[i])
  {
    if i > 0 {
      ReachableInv(states, events, i - 1);
      NumbersStep(states[i - 1], events[i - 1]);
      TokensStep(states[i - 1], events[i - 1]);
      OneLiveStep(states[i - 1], events[i - 1]);
    }
  }

  lemma RunStepAdvances(states: seq<State>, events: seq<Event>, i: nat)
    requires IsRun(states, events) && i < |events|
    ensures Advances(states[i], states[i + 1])
  {
    ReachableInv(states, events, i);
    StepAdvances(states[i], events[i]);
  }

  lemma {:induction false} RunAdvances(states: seq<State>, events: seq<Event>, i: nat, k: nat)
    requires IsRun(states, events) && i <= k < |states|
    ensures Advances(states[i], states[k])
    decreases k
  {
    if i < k {
      RunAdvances(states, events, i, k - 1);
      RunStepAdvances(states, events, k - 1);
      AdvancesTransitive(states[i], states[k - 1], states[k]);
    }
  }

  /** At any moment the access tokens that authenticate a device all belong to its one live session. */
  lemma OneAccessToken(states: seq<State>, events: seq<Event>, i: nat, x: Claims, y: Claims)
    requires IsRun(states, events) && i < |states| && x.device == y.device
    requires Authenticates(states[i], x) && Authenticates(states[i], y)
    ensures x == y
  {
    ReachableInv(states, events, i);
    assert Live(states[i], x.session, x.device) && Live(states[i], y.session, y.device);
  }

  predicate Consumes(s: State, e: Event, hash: Digest<nat>) {
    || (e.RefreshSession? && e.call in s.located && s.located[e.call].hash == hash && Refreshable(s, s.located[e.call]))
    || (e.PairDevice? && e.hash == hash && CodeUsable(s, hash, e.projectsActive))
  }

  /** A pairing code or a refresh token is consumed at most once in any run, however many calls race with it. */
  lemma ConsumedOnce(states: seq<State>, events: seq<Event>, i: nat, k: nat, hash: Digest<nat>)
    requires IsRun(states, events) && i < k < |events|
    requires Consumes(states[i], events[i], hash)
    ensures !Consumes(states[k], events[k], hash)
  {
    ReachableInv(states, events, i);
    ReachableInv(states, events, k);
    RunAdvances(states, events, i, i + 1);
    RunAdvances(states, events, i + 1, k);
  }

  /** After a revocation no session of the device is ever live again, and no token of it authenticates or rotates. */
  lemma RevocationIsFinal(states: seq<State>, events: seq<Event>, i: nat, k: nat, device: nat)
    requires IsRun(states, events) && i <= k < |states|
    requires device in states[i].devices && states[i].devices[device].revokedAt.Some?
    ensures forall session :: !Live(states[k], session, device)
    ensures forall c: Claims :: c.device == device ==> !Authenticates(states[k], c)
    ensures forall l: Locator :: l.device == device ==> Refreshed(states[k], l) == (states[k], None)
  {
    ReachableInv(states, events, k);
    RunAdvances(states, events, i, k);
  }
}
