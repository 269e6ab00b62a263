/** What a clock that was set back can do to the session file. */
module SessionLimits {
  import opened Collections
  import opened Sessions

  function Off(token: string, validPath: string -> bool): Store {
    Store(token, true, validPath, false, map[], None, None)
  }

  /** A running registry, what it remembers and what is on file. */
  function On(token: string, validPath: string -> bool, sessions: map<Digest, Session>, persistedAt: int,
      file: map<Digest, Session>): Store
  {
    Store(token, true, validPath, true, sessions, Some(persistedAt), Some(Image(TokenFingerprint(token), file)))
  }

  /** A session as a login at that reading makes it. */
  predicate LoggedIn(validPath: string -> bool, x: Session, now: int) {
    WellFormed(validPath, x) && x.createdAt == now && x.lastSeenAt == now && x.expiresAt == now + SESSION_TTL
  }

  function UsedAt(x: Session, now: int): Session {
    x.(lastSeenAt := now, expiresAt := now + SESSION_TTL)
  }

  /** A login when memory is nearly empty and nothing has expired. */
  lemma LoginStep(s: Store, x: Session, now: int)
    requires s.up && s.durable && |s.sessions| < MAX_SESSIONS && Unexpired(s.sessions, now) == s.sessions
    ensures var sessions := s.sessions[x.digest := x];
      Step(s, Create(x, now, true), On(s.token, s.validPath, sessions, now, sessions), Succeeded)
  {
    assert MadeRoom(Unexpired(s.sessions, now), s.sessions);
  }

  /** The calls of a login, a use of the session at the reading used, and another login. */
  function EarlyUse(token: string, x: Session, y: Session, used: int, now: int): seq<Event> {
    [
      Restart(token, true, 1, true),
      Create(x, x.createdAt, true),
      Authenticate(x.digest, "", used, true),
      Create(y, y.createdAt, true),
      Restart(token, true, now, true)
    ]
  }

  function EarlyUseStates(token: string, validPath: string -> bool, x: Session, y: Session, used: int): seq<Store> {
    var c := x.createdAt;
    var seen := map[x.digest := UsedAt(x, used)];
    var both := seen[y.digest := y];
    [
      Off(token, validPath),
      On(token, validPath, map[], 1, map[]),
      On(token, validPath, map[x.digest := x], c, map[x.digest := x]),
      On(token, validPath, seen, c, map[x.digest := x]),
      On(token, validPath, both, c, both),
      On(token, validPath, both, c, both).(up := false)
    ]
  }

  /** When a session is used at a reading before its login, the use is granted, the next login
      writes it, and the file is never believed again: the restart is refused. */
  lemma EarlyUseSpoilsFile(token: string, validPath: string -> bool, x: Session, y: Session, used: int, now: int)
      returns (r: Run)
    requires LoggedIn(validPath, x, x.createdAt) && LoggedIn(validPath, y, x.createdAt)
    requires x.deviceID != y.deviceID && x.digest != y.digest
    requires 0 < used < x.createdAt < used + SESSION_TTL && now > 0
    ensures IsRun(r) && r.events == EarlyUse(token, x, y, used, now)
    ensures r.outs == [Succeeded, Succeeded, Granted(UsedAt(x, used)), Succeeded, Failed]
  {
    var st := EarlyUseStates(token, validPath, x, y, used);
    r := Run(st, EarlyUse(token, x, y, used, now),
      [Succeeded, Succeeded, Granted(UsedAt(x, used)), Succeeded, Failed]);
    LoginStep(st[1], x, x.createdAt);
    assert map[][x.digest := x] == map[x.digest := x];
    EarlyUseStep(st[2], x, used, st[3]);
    LoginStep(st[3], y, y.createdAt);
    SpoiledStep(st[4], x.digest, now);
    assert StepAt(r, 0) && StepAt(r, 1) && StepAt(r, 2) && StepAt(r, 3) && StepAt(r, 4);
  }

  lemma EarlyUseStep(s: Store, x: Session, used: int, t: Store)
    requires s == On(s.token, s.validPath, map[x.digest := x], x.createdAt, map[x.digest := x])
    requires used < x.createdAt && used < x.expiresAt
    requires t == s.(sessions := map[x.digest := UsedAt(x, used)])
    ensures Step(s, Authenticate(x.digest, "", used, true), t, Granted(UsedAt(x, used)))
  {
    assert s.sessions[x.digest := UsedAt(x, used)] == t.sessions;
  }

  lemma SpoiledStep(s: Store, d: Digest, now: int)
    requires s.durable && s.disk.Some? && s.disk.value.fingerprint == TokenFingerprint(s.token)
    requires d in s.disk.value.sessions && !WellFormed(s.validPath, s.disk.value.sessions[d])
    ensures Step(s, Restart(s.token, true, now, true), s.(up := false), Failed)
  {
  }

  /** The calls of a login, a use after its expiry that cannot be written, a revocation, a restart
      that reads an earlier time, and another use. */
  function LateRevocation(token: string, x: Session, late: int, early: int): seq<Event> {
    [
      Restart(token, true, 1, true),
      Create(x, x.createdAt, true),
      Authenticate(x.digest, "", late, false),
      Revoke(x.digest, late, true),
      Restart(token, true, early, true),
      Authenticate(x.digest, "", early, true)
    ]
  }

  function LateRevocationStates(token: string, validPath: string -> bool, x: Session, early: int): seq<Store> {
    var c, one := x.createdAt, map[x.digest := x];
    var start := On(token, validPath, map[], 1, map[]);
    [
      Off(token, validPath), start,
      On(token, validPath, one, c, one),
      On(token, validPath, map[], c, one),
      On(token, validPath, map[], c, one),
      On(token, validPath, one, early, one),
      On(token, validPath, map[x.digest := UsedAt(x, early)], early, one)
    ]
  }

  /** Revoking a session that is no longer in memory succeeds without a write. If the file still
      holds it, a restart that reads a time before its expiry brings it back. */
  lemma ForgottenMayComeBack(token: string, validPath: string -> bool, x: Session, late: int, early: int)
      returns (r: Run)
    requires LoggedIn(validPath, x, x.createdAt) && x.createdAt > 0
    requires 0 < early < x.expiresAt <= late
    ensures IsRun(r) && r.events == LateRevocation(token, x, late, early)
    ensures r.outs == [Succeeded, Succeeded, Denied, Succeeded, Succeeded, Granted(UsedAt(x, early))]
  {
    var st := LateRevocationStates(token, validPath, x, early);
    r := Run(st, LateRevocation(token, x, late, early),
      [Succeeded, Succeeded, Denied, Succeeded, Succeeded, Granted(UsedAt(x, early))]);
    LoginStep(st[1], x, x.createdAt);
    assert map[][x.digest := x] == map[x.digest := x];
    ExpiredStep(st[2], x, late, st[3]);
    ComingBackStep(st[4], x, early, st[5]);
    EarlyStep(st[5], x, early, st[6]);
    assert StepAt(r, 0) && StepAt(r, 1) && StepAt(r, 2) && StepAt(r, 3) && StepAt(r, 4) && StepAt(r, 5);
  }

  lemma ExpiredStep(s: Store, x: Session, late: int, t: Store)
    requires s.up && s.durable && s.sessions == map[x.digest := x] && x.expiresAt <= late
    requires t == s.(sessions := map[])
    ensures Step(s, Authenticate(x.digest, "", late, false), t, Denied)
  {
    assert s.sessions - {x.digest} == map[];
  }

  lemma ComingBackStep(s: Store, x: Session, early: int, t: Store)
    requires s == On(s.token, s.validPath, map[], x.createdAt, map[x.digest := x])
    requires WellFormed(s.validPath, x) && early < x.expiresAt
    requires t == On(s.token, s.validPath, map[x.digest := x], early, map[x.digest := x])
    ensures Step(s, Restart(s.token, true, early, true), t, Succeeded)
  {
    assert Unexpired(s.disk.value.sessions, early) == s.disk.value.sessions;
  }

  lemma EarlyStep(s: Store, x: Session, early: int, t: Store)
    requires s == On(s.token, s.validPath, map[x.digest := x], early, map[x.digest := x]) && early < x.expiresAt
    requires t == s.(sessions := map[x.digest := UsedAt(x, early)])
    ensures Step(s, Authenticate(x.digest, "", early, true), t, Granted(UsedAt(x, early)))
  {
    assert s.sessions[x.digest := UsedAt(x, early)] == t.sessions;
  }
}
