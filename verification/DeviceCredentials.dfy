/** The credentials that pairing and rotation hand out work, for as long as they should. */
module DeviceCredentials {
  import opened Common
  import opened Devices

  /** The pair that a step hands to its caller. */
  predicate Hands(s: State, e: Event, pair: TokenPair) {
    || (e.PairDevice? && Paired(s, e.hash, e.projectsActive).1 == Some(pair))
    || (e.RefreshSession? && e.call in s.located && Refreshed(s, s.located[e.call]).1 == Some(pair))
  }

  /** Where the server finds a refresh token of this pair. */
  function LocatorOf(pair: TokenPair): Locator {
    Locator(Sha256(pair.refresh), pair.access.session, pair.access.device)
  }

  predicate RowOf(row: SessionRow, pair: TokenPair, issued: int) {
    && row.device == Some(pair.access.device)
    && row.jti == pair.access.jti && row.refreshHash == Sha256(pair.refresh)
    && row.createdAt == issued && row.accessExpiresAt == issued + 7200 && row.refreshExpiresAt == issued + 1209600
  }

  /** The row behind a pair, issued at this moment: two hours of access and fourteen days of refresh. */
  predicate Backed(s: State, pair: TokenPair, issued: int) {
    && pair.access.issuedAt == issued && pair.access.expiresAt == issued + 7200
    && pair.access.session in s.sessions && RowOf(s.sessions[pair.access.session], pair, issued)
    && pair.access.device in s.devices && s.devices[pair.access.device].owner == pair.access.owner
  }

  predicate OpenSession(s: State, k: nat) {
    k in s.sessions && s.sessions[k].revokedAt.None? && s.sessions[k].refreshUsedAt.None?
  }

  /** Pairing succeeds exactly with an unused, unexpired code whose owner and projects are active. */
  lemma PairsExactly(s: State, hash: Digest<nat>, projectsActive: bool)
    ensures Paired(s, hash, projectsActive).1.Some? <==>
              && hash in s.codes && s.codes[hash].usedAt.None? && s.clock < s.codes[hash].expiresAt
              && s.codes[hash].owner in s.activeOwners && projectsActive
    ensures Paired(s, hash, projectsActive).1.None? ==> Paired(s, hash, projectsActive).0 == s
  {
  }

  /** What a pairing hands out is good at once, for a device that did not exist before, of the code's owner. */
  lemma PairHandsCredentials(s: State, hash: Digest<nat>, projectsActive: bool)
    requires Inv(s) && Paired(s, hash, projectsActive).1.Some?
    ensures var (t, pair) := (Paired(s, hash, projectsActive).0, Paired(s, hash, projectsActive).1.value);
      && Backed(t, pair, s.clock) && OpenSession(t, pair.access.session)
      && Authenticates(t, pair.access)
      && Locates(t, Sha256(pair.refresh), pair.access.session) && Refreshable(t, LocatorOf(pair))
      && pair.access.device !in s.devices && pair.access.owner == s.codes[hash].owner
      && t.codes[hash].usedAt == Some(s.clock)
  {
  }

  /** A rotation hands out a new pair for the same device and owner, and the old session is over. */
  lemma RefreshHandsCredentials(s: State, l: Locator)
    requires Inv(s) && Refreshed(s, l).1.Some?
    ensures var (t, pair) := (Refreshed(s, l).0, Refreshed(s, l).1.value);
      && Backed(t, pair, s.clock) && OpenSession(t, pair.access.session)
      && Authenticates(t, pair.access)
      && Locates(t, Sha256(pair.refresh), pair.access.session) && Refreshable(t, LocatorOf(pair))
      && pair.access.device == l.device && pair.access.owner == s.devices[l.device].owner
      && pair.access.session !in s.sessions
      && t.sessions[l.session].refreshUsedAt == Some(s.clock) && t.sessions[l.session].revokedAt == Some(s.clock)
  {
    assert Sha256(s.drawn + 2).preimage == s.drawn + 2;
  }

  /** A refresh call is its unlocked lookup followed by its rotation, run without interference. */
  lemma RefreshIsLocateThenRotate(s: State, call: nat, l: Locator)
    requires Locates(s, l.hash, l.session) && s.sessions[l.session].device == Some(l.device) && call !in s.located
    ensures Enabled(s, Locate(call, l.hash, l.session))
    ensures var t := Apply(s, Locate(call, l.hash, l.session));
      && Enabled(t, RefreshSession(call))
      && Apply(t, RefreshSession(call)) == Refreshed(s, l).0
      && Refreshed(t, t.located[call]).1 == Refreshed(s, l).1
  {
    var t := Apply(s, Locate(call, l.hash, l.session));
    assert t.located - {call} == s.located;
    assert Refreshable(t, l) <==> Refreshable(s, l);
  }

  /** In a reachable state, whatever is handed out is backed, open and fresh. */
  lemma HandedIsBacked(states: seq<State>, events: seq<Event>, i: nat, pair: TokenPair)
    requires IsRun(states, events) && i < |events| && Hands(states[i], events[i], pair)
    ensures Backed(states[i + 1], pair, states[i].clock) && OpenSession(states[i + 1], pair.access.session)
    ensures Authenticates(states[i + 1], pair.access) && Refreshable(states[i + 1], LocatorOf(pair))
    ensures Locates(states[i + 1], Sha256(pair.refresh), pair.access.session)
  {
    ReachableInv(states, events, i);
    if events[i].PairDevice? {
      PairHandsCredentials(states[i], events[i].hash, events[i].projectsActive);
    } else {
      RefreshHandsCredentials(states[i], states[i].located[events[i].call]);
    }
  }

  lemma BackedLater(s: State, t: State, pair: TokenPair, issued: int)
    requires Backed(s, pair, issued) && Advances(s, t)
    ensures Backed(t, pair, issued)
  {
  }

  /**
   * From then on the access token authenticates exactly while owner, device and session are in force
   * and two hours have not passed, and the refresh token rotates exactly while they are, it is unused
   * and fourteen days have not passed.
   */
  lemma CredentialsWorkUntil(states: seq<State>, events: seq<Event>, i: nat, k: nat, pair: TokenPair)
    requires IsRun(states, events) && i < k < |states| && Hands(states[i], events[i], pair)
    ensures var s, c := states[k], pair.access;
      && c.session in s.sessions && c.device in s.devices
      && (Authenticates(s, c) <==>
            && c.owner in s.activeOwners && s.devices[c.device].revokedAt.None?
            && s.sessions[c.session].revokedAt.None? && s.clock < states[i].clock + 7200)
      && (Refreshed(s, LocatorOf(pair)).1.Some? <==>
            && c.owner in s.activeOwners && s.devices[c.device].revokedAt.None?
            && OpenSession(s, c.session) && s.clock < states[i].clock + 1209600)
      && Locates(s, Sha256(pair.refresh), c.session)
  {
    HandedIsBacked(states, events, i, pair);
    RunAdvances(states, events, i, i + 1);
    RunAdvances(states, events, i + 1, k);
    BackedLater(states[i + 1], states[k], pair, states[i].clock);
  }

  /** A code that was issued pairs exactly while it is unused, its owner is active and ten minutes have not passed. */
  lemma CodeWorksUntil(states: seq<State>, events: seq<Event>, i: nat, k: nat, owner: nat)
    requires IsRun(states, events) && i < k < |states|
    requires events[i] == IssueCode(owner) && owner in states[i].activeOwners
    ensures CodeIssued(states[i], owner).1.Some?
    ensures var hash, s := Sha256(CodeIssued(states[i], owner).1.value), states[k];
      && hash in s.codes
      && (Paired(s, hash, true).1.Some? <==>
            s.codes[hash].usedAt.None? && owner in s.activeOwners && s.clock < states[i].clock + 600)
  {
    RunAdvances(states, events, i + 1, k);
    assert states[i + 1] == Apply(states[i], events[i]);
  }

  /**
   * A revocation by the active owner closes the device and each of its open sessions at that moment,
   * keeps the times of those closed earlier, and touches nothing else; any other changes nothing.
   */
  lemma RevokesExactly(s: State, owner: nat, device: nat)
    ensures var t := Revoked(s, owner, device);
      if owner in s.activeOwners && device in s.devices && s.devices[device] == DeviceRow(owner, None) then
        && t.devices == s.devices[device := DeviceRow(owner, Some(s.clock))]
        && t.sessions.Keys == s.sessions.Keys
        && (forall k :: k in s.sessions && s.sessions[k].device == Some(device) && s.sessions[k].revokedAt.None? ==>
              t.sessions[k] == s.sessions[k].(revokedAt := Some(s.clock)))
        && (forall k :: k in s.sessions && !(s.sessions[k].device == Some(device) && s.sessions[k].revokedAt.None?) ==>
              t.sessions[k] == s.sessions[k])
        && t.(devices := s.devices, sessions := s.sessions) == s
      else t == s
  {
  }
}
