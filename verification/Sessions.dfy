/** Durable web sessions as values: what each operation of the store may do to memory and
    file, and what holds of the two in every reachable state. */
module Sessions {
  import opened Collections
  import opened Text

  const SESSION_TTL := 180 * 24 * 3600 * 1_000_000_000
  const PERSIST_INTERVAL := 300 * 1_000_000_000
  const MAX_SESSIONS := 1024

  /** sha256 of a credential, and of the registry token: free constructors, so injective. */
  datatype Digest = Sha256(raw: string)
  datatype Fingerprint = TokenFingerprint(token: string)

  datatype Session = Session(deviceID: string, digest: Digest, deviceName: string, basePath: string,
    loginIP: string, loginLocation: string, createdAt: int, lastSeenAt: int, expiresAt: int)

  /** What the file holds, as far as loading it is concerned. */
  datatype Image = Image(fingerprint: Fingerprint, sessions: map<Digest, Session>)

  /** durable is false when no file path is configured; validPath is the check of base paths;
      up is false once loading has failed. */
  datatype Store = Store(token: string, durable: bool, validPath: string -> bool, up: bool,
    sessions: map<Digest, Session>, persistedAt: Option<int>, disk: Option<Image>)

  datatype Outcome = Granted(session: Session) | Denied | Succeeded | Failed

  /** One call, with its clock reading and whether writing the file would succeed. A call reads the
      clock before it gets the lock, so readings may come in any order. */
  datatype Event =
    | Create(session: Session, now: int, writes: bool)
    | Authenticate(digest: Digest, basePath: string, now: int, writes: bool)
    | Revoke(digest: Digest, now: int, writes: bool)
    | RevokeDevice(deviceID: string, now: int, writes: bool)
    | RevokeAll(now: int, writes: bool)
    | List(now: int, writes: bool)
    | Restart(token: string, readable: bool, now: int, writes: bool)

  /** What every session has, however the clock behaves. */
  predicate Complete(validPath: string -> bool, s: Session) {
    && s.deviceID != "" && s.deviceName != "" && validPath(s.basePath)
    && s.createdAt != 0 && s.lastSeenAt < s.expiresAt
  }

  /** The checks a record passes when it is loaded. */
  predicate WellFormed(validPath: string -> bool, s: Session) {
    Complete(validPath, s) && s.createdAt <= s.lastSeenAt
  }

  predicate AllWellFormed(validPath: string -> bool, m: map<Digest, Session>) {
    forall d :: d in m ==> WellFormed(validPath, m[d])
  }

  function Unexpired(m: map<Digest, Session>, now: int): map<Digest, Session> {
    map d | d in m && now < m[d].expiresAt :: m[d]
  }

  /** The order in which sessions make room for new ones. */
  predicate Older(a: Session, b: Session) {
    || a.lastSeenAt < b.lastSeenAt
    || (a.lastSeenAt == b.lastSeenAt && a.createdAt < b.createdAt)
    || (a.lastSeenAt == b.lastSeenAt && a.createdAt == b.createdAt && Less(a.deviceID, b.deviceID))
  }

  /** What is not older than b is not older than anything older than b. */
  lemma OlderKeeps(a: Session, b: Session, c: Session)
    requires !Older(a, b) && Older(c, b)
    ensures !Older(a, c)
  {
    LessTotal(a.deviceID, b.deviceID);
    if Less(a.deviceID, c.deviceID) && Less(c.deviceID, b.deviceID) {
      LessTransitive(a.deviceID, c.deviceID, b.deviceID);
    }
  }

  lemma NotOlderThanItself(a: Session)
    ensures !Older(a, a)
  {
    LessIrreflexive(a.deviceID);
  }

  ghost predicate IsOldest(m: map<Digest, Session>, d: Digest) {
    d in m && forall e :: e in m ==> !Older(m[e], m[d])
  }

  /** Below capacity nothing goes; at capacity exactly the least recently seen session goes. */
  ghost predicate MadeRoom(m: map<Digest, Session>, room: map<Digest, Session>) {
    if |m| < MAX_SESSIONS then room == m
    else exists d :: IsOldest(m, d) && room == m - {d}
  }

  /** persistLocked: all or nothing. None is a failed write. */
  function Persist(s: Store, sessions: map<Digest, Session>, now: int, writes: bool): Option<Store> {
    if !s.durable then Some(s.(sessions := sessions, persistedAt := Some(now)))
    else if writes then
      Some(s.(sessions := sessions, persistedAt := Some(now), disk := Some(Image(TokenFingerprint(s.token), sessions))))
    else None
  }

  /** A change that is undone when it cannot be written. */
  ghost predicate WrittenOrUndone(s: Store, sessions: map<Digest, Session>, now: int, writes: bool, t: Store, ok: bool)
  {
    match Persist(s, sessions, now, writes)
    case Some(p) => t == p && ok
    case None => t == s && !ok
  }

  ghost predicate CreateStep(s: Store, session: Session, now: int, writes: bool, t: Store, out: Outcome) {
    exists room :: MadeRoom(Unexpired(s.sessions, now), room)
      && out in {Succeeded, Failed}
      && WrittenOrUndone(s, room[session.digest := session], now, writes, t, out == Succeeded)
  }

  predicate Due(s: Store, now: int) {
    s.persistedAt.None? || now - s.persistedAt.value >= PERSIST_INTERVAL
  }

  ghost predicate AuthenticateStep(s: Store, d: Digest, basePath: string, now: int, writes: bool, t: Store,
    out: Outcome)
  {
    if d !in s.sessions || (basePath != "" && s.sessions[d].basePath != basePath) then
      t == s && out == Denied
    else if now >= s.sessions[d].expiresAt then
      var rest := s.sessions - {d};
      out == Denied && t == (match Persist(s, rest, now, writes) case Some(p) => p case None => s.(sessions := rest))
    else
      var seen := s.sessions[d].(lastSeenAt := now, expiresAt := now + SESSION_TTL);
      if Due(s, now) then
        WrittenOrUndone(s, s.sessions[d := seen], now, writes, t, out == Granted(seen))
        && out in {Granted(seen), Denied}
      else
        t == s.(sessions := s.sessions[d := seen]) && out == Granted(seen)
  }

  ghost predicate RevokeStep(s: Store, d: Digest, now: int, writes: bool, t: Store, out: Outcome) {
    if d !in s.sessions then t == s && out == Succeeded
    else out in {Succeeded, Failed} && WrittenOrUndone(s, s.sessions - {d}, now, writes, t, out == Succeeded)
  }

  ghost predicate RevokeDeviceStep(s: Store, deviceID: string, now: int, writes: bool, t: Store, out: Outcome) {
    if deviceID == "" || (forall d :: d in s.sessions ==> s.sessions[d].deviceID != deviceID) then
      t == s && out == Denied
    else
      exists d :: d in s.sessions && s.sessions[d].deviceID == deviceID && out in {Succeeded, Failed}
        && WrittenOrUndone(s, s.sessions - {d}, now, writes, t, out == Succeeded)
  }

  ghost predicate RevokeAllStep(s: Store, now: int, writes: bool, t: Store, out: Outcome) {
    if s.sessions == map[] then t == s && out == Succeeded
    else out in {Succeeded, Failed} && WrittenOrUndone(s, map[], now, writes, t, out == Succeeded)
  }

  ghost predicate ListStep(s: Store, now: int, writes: bool, t: Store, out: Outcome) {
    if Unexpired(s.sessions, now) == s.sessions then t == s && out == Succeeded
    else out in {Succeeded, Failed} && WrittenOrUndone(s, Unexpired(s.sessions, now), now, writes, t, out == Succeeded)
  }

  /** Every session is stored under its own digest. */
  predicate Keyed(m: map<Digest, Session>) {
    forall d :: d in m ==> m[d].digest == d
  }

  ghost predicate DistinctDevices(m: map<Digest, Session>) {
    forall d, e :: d in m && e in m && m[d].deviceID == m[e].deviceID ==> d == e
  }

  /** At most 1024 complete sessions, each under its digest, no device id twice. */
  ghost predicate Shaped(validPath: string -> bool, m: map<Digest, Session>) {
    && |m| <= MAX_SESSIONS && Keyed(m) && DistinctDevices(m)
    && forall d :: d in m ==> Complete(validPath, m[d])
  }

  ghost predicate SameFileButDown(s: Store, t: Store) {
    t.disk == s.disk && t.token == s.token && t.durable == s.durable && t.validPath == s.validPath && !t.up
  }

  /** A persist whose failure leaves the process down. */
  ghost predicate PersistedOrDown(s: Store, sessions: map<Digest, Session>, now: int, writes: bool, t: Store,
    out: Outcome)
  {
    match Persist(s, sessions, now, writes)
    case Some(p) => t == p && out == Succeeded
    case None => SameFileButDown(s, t) && out == Failed
  }

  /** The process starts again, perhaps with another token, and loads the file. */
  ghost predicate RestartStep(s: Store, token: string, readable: bool, now: int, writes: bool, t: Store, out: Outcome) {
    var empty := Store(token, s.durable, s.validPath, true, map[], None, s.disk);
    if !s.durable then t == empty.(persistedAt := Some(now)) && out == Succeeded
    else if !readable then
      SameFileButDown(empty, t) && out == Failed
    else if s.disk.None? || s.disk.value.fingerprint != TokenFingerprint(token) then
      PersistedOrDown(empty, map[], now, writes, t, out)
    else if !AllWellFormed(s.validPath, s.disk.value.sessions) then
      SameFileButDown(empty, t) && out == Failed
    else
      var loaded := Unexpired(s.disk.value.sessions, now);
      if loaded == s.disk.value.sessions then
        t == empty.(sessions := loaded, persistedAt := Some(now)) && out == Succeeded
      else PersistedOrDown(empty, loaded, now, writes, t, out)
  }

  ghost predicate Step(s: Store, e: Event, t: Store, out: Outcome) {
    match e
    case Create(session, now, writes) => s.up && CreateStep(s, session, now, writes, t, out)
    case Authenticate(d, basePath, now, writes) => s.up && AuthenticateStep(s, d, basePath, now, writes, t, out)
    case Revoke(d, now, writes) => s.up && RevokeStep(s, d, now, writes, t, out)
    case RevokeDevice(deviceID, now, writes) => s.up && RevokeDeviceStep(s, deviceID, now, writes, t, out)
    case RevokeAll(now, writes) => s.up && RevokeAllStep(s, now, writes, t, out)
    case List(now, writes) => s.up && ListStep(s, now, writes, t, out)
    case Restart(token, readable, now, writes) => RestartStep(s, token, readable, now, writes, t, out)
  }

  /** Fresh credentials: what the random source and the callers guarantee of a new session. */
  ghost predicate FreshIn(s: Store, session: Session, now: int) {
    && WellFormed(s.validPath, session)
    && session.createdAt == now && session.lastSeenAt == now && session.expiresAt == now + SESSION_TTL
    && forall d :: d in s.sessions ==> session.deviceID != s.sessions[d].deviceID && d != session.digest
  }

  /** A reading after Go's zero time, and fresh credentials at a login. */
  ghost predicate Admissible(s: Store, e: Event) {
    e.now > 0 && (e.Create? ==> FreshIn(s, e.session, e.now))
  }

  /** Memory or file, when the latest reading is clock and none was more than skew behind: seen by
      now, at most skew before its creation, and expiring one lifetime after last use. */
  ghost predicate Sound(validPath: string -> bool, m: map<Digest, Session>, clock: int, skew: nat) {
    && Shaped(validPath, m)
    && forall d :: d in m ==> Timed(m[d], clock, skew)
  }

  predicate Timed(s: Session, clock: int, skew: nat) {
    && s.createdAt <= clock && s.lastSeenAt <= clock && s.createdAt <= s.lastSeenAt + skew
    && s.expiresAt == s.lastSeenAt + SESSION_TTL
  }

  predicate SameIdentity(a: Session, b: Session) {
    a.(lastSeenAt := b.lastSeenAt, expiresAt := b.expiresAt) == b
  }

  /** Crash consistency: what a crash now would lose is at most the last minutes of use. */
  ghost predicate Consistent(s: Store, clock: int, skew: nat) {
    && (s.disk.Some? ==> Sound(s.validPath, s.disk.value.sessions, clock, skew))
    && (s.up ==>
      && Sound(s.validPath, s.sessions, clock, skew)
      && s.persistedAt.Some? && s.persistedAt.value <= clock
      && (s.durable ==> s.disk.Some? && s.disk.value.fingerprint == TokenFingerprint(s.token))
      && (s.durable ==> FileMatches(s.sessions, s.disk.value.sessions, s.persistedAt.value, clock, skew)))
    && (!s.durable ==> s.disk.None?)
  }

  /** Every live session is on file under the same identity; a use missing from the file is
      younger than the persist interval; whatever else is on file has expired. What is compared
      with an earlier reading is so up to the skew. */
  ghost predicate FileMatches(mem: map<Digest, Session>, file: map<Digest, Session>, persistedAt: int, clock: int,
    skew: nat)
  {
    && (forall d :: d in mem ==> d in file && SameIdentity(mem[d], file[d]))
    && (forall d :: d in mem && d in file ==> file[d].lastSeenAt <= mem[d].lastSeenAt + skew)
    && (forall d :: d in mem && d in file && mem[d] != file[d] ==>
      persistedAt - skew <= mem[d].lastSeenAt < persistedAt + PERSIST_INTERVAL)
    && (forall d :: d in file && d !in mem ==> file[d].expiresAt <= clock + skew)
  }

  /** A reading that is not after the latest one, nor more than skew behind it. */
  predicate InTime(now: int, clock: int, skew: nat) {
    clock - skew <= now <= clock
  }

  lemma ShapedPart(validPath: string -> bool, m: map<Digest, Session>, n: map<Digest, Session>)
    requires Shaped(validPath, n)
    requires forall d :: d in m ==> d in n && m[d] == n[d]
    ensures Shaped(validPath, m)
  {
    SmallerMap(m, n);
  }

  /** Part of a sound map is sound. */
  lemma SoundPart(validPath: string -> bool, m: map<Digest, Session>, n: map<Digest, Session>, clock: int, skew: nat)
    requires Sound(validPath, n, clock, skew)
    requires forall d :: d in m ==> d in n && m[d] == n[d]
    ensures Sound(validPath, m, clock, skew)
  {
    ShapedPart(validPath, m, n);
  }

  lemma ConsistentLater(s: Store, clock: int, later: int, skew: nat)
    requires Consistent(s, clock, skew) && clock <= later
    ensures Consistent(s, later, skew)
  {
  }

  /** Writing a sound map, or undoing the change, is consistent. */
  lemma WrittenIsConsistent(s: Store, sessions: map<Digest, Session>, now: int, writes: bool, t: Store, ok: bool,
      clock: int, skew: nat)
    requires Consistent(s, clock, skew) && s.up && Sound(s.validPath, sessions, clock, skew) && now <= clock
    requires WrittenOrUndone(s, sessions, now, writes, t, ok)
    ensures Consistent(t, clock, skew)
  {
  }

  lemma RoomIsSound(validPath: string -> bool, m: map<Digest, Session>, room: map<Digest, Session>, now: int,
      clock: int, skew: nat)
    requires Sound(validPath, m, clock, skew) && MadeRoom(Unexpired(m, now), room)
    ensures Sound(validPath, room, clock, skew) && |room| < MAX_SESSIONS
    ensures forall d :: d in room ==> d in m && room[d] == m[d]
  {
    var kept := Unexpired(m, now);
    SmallerMap(kept, m);
    if |kept| >= MAX_SESSIONS {
      var d :| IsOldest(kept, d) && room == kept - {d};
      assert room.Keys == kept.Keys - {d};
    }
    SoundPart(validPath, room, m, clock, skew);
  }

  lemma RoomForOne(validPath: string -> bool, room: map<Digest, Session>, session: Session)
    requires Shaped(validPath, room) && |room| < MAX_SESSIONS && Complete(validPath, session)
    requires forall d :: d in room ==> room[d].deviceID != session.deviceID
    ensures Shaped(validPath, room[session.digest := session])
  {
    var full := room[session.digest := session];
    assert full.Keys == room.Keys + {session.digest};
    forall d | d in full ensures full[d].digest == d && Complete(validPath, full[d]) {
      assert d != session.digest ==> full[d] == room[d];
    }
  }

  /** A fresh session fits into a sound map with room. */
  lemma SoundWith(validPath: string -> bool, room: map<Digest, Session>, session: Session, clock: int, skew: nat)
    requires Sound(validPath, room, clock, skew) && |room| < MAX_SESSIONS
    requires Complete(validPath, session) && Timed(session, clock, skew)
    requires forall d :: d in room ==> session.deviceID != room[d].deviceID
    ensures Sound(validPath, room[session.digest := session], clock, skew)
  {
    RoomForOne(validPath, room, session);
  }

  lemma StillShaped(validPath: string -> bool, m: map<Digest, Session>, d: Digest, session: Session)
    requires Shaped(validPath, m) && d in m && Complete(validPath, session) && session.digest == d
    requires session.deviceID == m[d].deviceID
    ensures Shaped(validPath, m[d := session])
  {
    var n := m[d := session];
    assert n.Keys == m.Keys;
    SmallerMap(n, m);
    forall x | x in n ensures n[x].digest == x && Complete(validPath, n[x]) {
      assert x != d ==> n[x] == m[x];
    }
    forall x, y | x in n && y in n && n[x].deviceID == n[y].deviceID ensures x == y {
      assert m[x].deviceID == n[x].deviceID && m[y].deviceID == n[y].deviceID;
    }
  }

  lemma SoundTouched(validPath: string -> bool, m: map<Digest, Session>, d: Digest, now: int, clock: int, skew: nat)
    requires Sound(validPath, m, clock, skew) && d in m && InTime(now, clock, skew)
    ensures Sound(validPath, m[d := m[d].(lastSeenAt := now, expiresAt := now + SESSION_TTL)], clock, skew)
  {
    StillShaped(validPath, m, d, m[d].(lastSeenAt := now, expiresAt := now + SESSION_TTL));
  }

  lemma CreateKeeps(s: Store, session: Session, now: int, writes: bool, t: Store, out: Outcome, clock: int, skew: nat)
    requires Consistent(s, clock, skew) && s.up && FreshIn(s, session, now) && now <= clock
    requires CreateStep(s, session, now, writes, t, out)
    ensures Consistent(t, clock, skew)
  {
    var room :| MadeRoom(Unexpired(s.sessions, now), room)
      && WrittenOrUndone(s, room[session.digest := session], now, writes, t, out == Succeeded);
    RoomIsSound(s.validPath, s.sessions, room, now, clock, skew);
    SoundWith(s.validPath, room, session, clock, skew);
    WrittenIsConsistent(s, room[session.digest := session], now, writes, t, out == Succeeded, clock, skew);
  }

  /** A use that is not written yet leaves the file the only thing behind. */
  lemma TouchIsConsistent(s: Store, d: Digest, now: int, clock: int, skew: nat)
    requires Consistent(s, clock, skew) && s.up && d in s.sessions && !Due(s, now) && InTime(now, clock, skew)
    ensures var seen := s.sessions[d].(lastSeenAt := now, expiresAt := now + SESSION_TTL);
      Consistent(s.(sessions := s.sessions[d := seen]), clock, skew)
  {
    SoundTouched(s.validPath, s.sessions, d, now, clock, skew);
    if s.durable {
      assert s.disk.value.sessions[d].lastSeenAt <= clock;
      TouchMatches(s.sessions, s.disk.value.sessions, s.persistedAt.value, d, now, clock, skew);
    }
  }

  lemma TouchMatches(mem: map<Digest, Session>, file: map<Digest, Session>, persistedAt: int, d: Digest, now: int,
      clock: int, skew: nat)
    requires FileMatches(mem, file, persistedAt, clock, skew) && d in mem && file[d].lastSeenAt <= clock
    requires persistedAt <= clock && now < persistedAt + PERSIST_INTERVAL && InTime(now, clock, skew)
    ensures var seen := mem[d].(lastSeenAt := now, expiresAt := now + SESSION_TTL);
      FileMatches(mem[d := seen], file, persistedAt, clock, skew)
  {
  }

  /** Expiry found at authentication: gone from memory, and harmless if still on file. */
  lemma ExpiredIsConsistent(s: Store, d: Digest, now: int, clock: int, skew: nat)
    requires Consistent(s, clock, skew) && s.up && d in s.sessions && now >= s.sessions[d].expiresAt && now <= clock
    ensures Sound(s.validPath, s.sessions - {d}, clock, skew)
    ensures Consistent(s.(sessions := s.sessions - {d}), clock, skew)
  {
    SoundPart(s.validPath, s.sessions - {d}, s.sessions, clock, skew);
  }

  lemma AuthenticateKeeps(s: Store, d: Digest, basePath: string, now: int, writes: bool, t: Store, out: Outcome,
      clock: int, skew: nat)
    requires Consistent(s, clock, skew) && s.up && InTime(now, clock, skew)
    requires AuthenticateStep(s, d, basePath, now, writes, t, out)
    ensures Consistent(t, clock, skew)
  {
    if d in s.sessions && !(basePath != "" && s.sessions[d].basePath != basePath) {
      if now >= s.sessions[d].expiresAt {
        ExpiredIsConsistent(s, d, now, clock, skew);
        if Persist(s, s.sessions - {d}, now, writes).Some? {
          WrittenIsConsistent(s, s.sessions - {d}, now, writes, t, true, clock, skew);
        }
      } else if Due(s, now) {
        SoundTouched(s.validPath, s.sessions, d, now, clock, skew);
        var seen := s.sessions[d].(lastSeenAt := now, expiresAt := now + SESSION_TTL);
        WrittenIsConsistent(s, s.sessions[d := seen], now, writes, t, out == Granted(seen), clock, skew);
      } else {
        TouchIsConsistent(s, d, now, clock, skew);
      }
    }
  }

  lemma RestartKeeps(s: Store, token: string, readable: bool, now: int, writes: bool, t: Store, out: Outcome,
      clock: int, skew: nat)
    requires Consistent(s, clock, skew) && RestartStep(s, token, readable, now, writes, t, out) && now <= clock
    ensures Consistent(t, clock, skew)
  {
    if s.disk.Some? {
      SoundPart(s.validPath, Unexpired(s.disk.value.sessions, now), s.disk.value.sessions, clock, skew);
    }
    assert Sound(s.validPath, map[], clock, skew);
  }

  /** Writing back some of the sessions keeps memory and file consistent. */
  lemma PartKeeps(s: Store, part: map<Digest, Session>, now: int, writes: bool, t: Store, ok: bool, clock: int,
      skew: nat)
    requires Consistent(s, clock, skew) && s.up && now <= clock
    requires forall d :: d in part ==> d in s.sessions && part[d] == s.sessions[d]
    requires WrittenOrUndone(s, part, now, writes, t, ok)
    ensures Consistent(t, clock, skew)
  {
    SoundPart(s.validPath, part, s.sessions, clock, skew);
    WrittenIsConsistent(s, part, now, writes, t, ok, clock, skew);
  }

  lemma RevokeKeeps(s: Store, d: Digest, now: int, writes: bool, t: Store, out: Outcome, clock: int, skew: nat)
    requires Consistent(s, clock, skew) && s.up && RevokeStep(s, d, now, writes, t, out) && now <= clock
    ensures Consistent(t, clock, skew)
  {
    if d in s.sessions {
      PartKeeps(s, s.sessions - {d}, now, writes, t, out == Succeeded, clock, skew);
    }
  }

  lemma RevokeDeviceKeeps(s: Store, deviceID: string, now: int, writes: bool, t: Store, out: Outcome, clock: int,
      skew: nat)
    requires Consistent(s, clock, skew) && s.up && RevokeDeviceStep(s, deviceID, now, writes, t, out) && now <= clock
    ensures Consistent(t, clock, skew)
  {
    if t != s {
      var d :| d in s.sessions && WrittenOrUndone(s, s.sessions - {d}, now, writes, t, out == Succeeded);
      PartKeeps(s, s.sessions - {d}, now, writes, t, out == Succeeded, clock, skew);
    }
  }

  lemma RevokeAllKeeps(s: Store, now: int, writes: bool, t: Store, out: Outcome, clock: int, skew: nat)
    requires Consistent(s, clock, skew) && s.up && RevokeAllStep(s, now, writes, t, out) && now <= clock
    ensures Consistent(t, clock, skew)
  {
    if s.sessions != map[] {
      PartKeeps(s, map[], now, writes, t, out == Succeeded, clock, skew);
    }
  }

  lemma ListKeeps(s: Store, now: int, writes: bool, t: Store, out: Outcome, clock: int, skew: nat)
    requires Consistent(s, clock, skew) && s.up && ListStep(s, now, writes, t, out) && now <= clock
    ensures Consistent(t, clock, skew)
  {
    if Unexpired(s.sessions, now) != s.sessions {
      PartKeeps(s, Unexpired(s.sessions, now), now, writes, t, out == Succeeded, clock, skew);
    }
  }

  /** Every step whose reading is at most skew behind the latest keeps memory and file consistent. */
  lemma StepKeepsConsistent(s: Store, e: Event, t: Store, out: Outcome, clock: int, skew: nat)
    requires Consistent(s, clock, skew) && Admissible(s, e) && Step(s, e, t, out) && clock - skew <= e.now
    ensures Consistent(t, Max(clock, e.now), skew)
  {
    var c := Max(clock, e.now);
    ConsistentLater(s, clock, c, skew);
    match e
    case Create(session, now, writes) => CreateKeeps(s, session, now, writes, t, out, c, skew);
    case Authenticate(d, basePath, now, writes) => AuthenticateKeeps(s, d, basePath, now, writes, t, out, c, skew);
    case Revoke(d, now, writes) => RevokeKeeps(s, d, now, writes, t, out, c, skew);
    case RevokeDevice(deviceID, now, writes) => RevokeDeviceKeeps(s, deviceID, now, writes, t, out, c, skew);
    case RevokeAll(now, writes) => RevokeAllKeeps(s, now, writes, t, out, c, skew);
    case List(now, writes) => ListKeeps(s, now, writes, t, out, c, skew);
    case Restart(token, readable, now, writes) => RestartKeeps(s, token, readable, now, writes, t, out, c, skew);
  }

  /** A credential that no restart from that time on can bring back: not in memory, and expired by
      then if on file. */
  ghost predicate Dead(s: Store, d: Digest, until: int) {
    && (s.up ==> d !in s.sessions)
    && (s.disk.Some? && d in s.disk.value.sessions ==> s.disk.value.sessions[d].expiresAt <= until)
  }

  lemma StepKeepsDead(s: Store, e: Event, t: Store, out: Outcome, d: Digest, until: int)
    requires Dead(s, d, until) && Step(s, e, t, out)
    requires e.Create? ==> e.session.digest != d
    requires e.Restart? ==> e.now >= until
    ensures Dead(t, d, until)
  {
    if e.Create? {
      var kept := Unexpired(s.sessions, e.now);
      var room :| MadeRoom(kept, room)
        && WrittenOrUndone(s, room[e.session.digest := e.session], e.now, e.writes, t, out == Succeeded);
    }
  }

  lemma DeadIsDenied(s: Store, e: Event, t: Store, out: Outcome, d: Digest, until: int)
    requires Dead(s, d, until) && Step(s, e, t, out)
    requires e.Authenticate? && e.digest == d
    ensures out == Denied
  {
  }

  /** The credentials a revocation has taken away. */
  ghost predicate Revokes(s: Store, e: Event, t: Store, out: Outcome, d: Digest) {
    && out == Succeeded && d in s.sessions
    && match e
      case Revoke(r, _, _) => d == r
      case RevokeDevice(_, _, _) => d !in t.sessions
      case RevokeAll(_, _) => true
      case _ => false
  }

  /** A session in memory that was revoked is in neither place. */
  lemma RevocationKills(s: Store, e: Event, t: Store, out: Outcome, d: Digest)
    requires Step(s, e, t, out) && Revokes(s, e, t, out, d) && (!s.durable ==> s.disk.None?)
    ensures Dead(t, d, 0)
  {
  }

  /** A run: the states it passes through and what each call returned. */
  datatype Run = Run(states: seq<Store>, events: seq<Event>, outs: seq<Outcome>)

  /** The latest reading of the first i calls. */
  ghost function ClockAt(r: Run, i: nat): int
    requires i <= |r.events|
  {
    if i == 0 then 0 else Max(ClockAt(r, i - 1), r.events[i - 1].now)
  }

  ghost predicate StepAt(r: Run, i: nat)
    requires |r.states| == |r.events| + 1 && |r.outs| == |r.events| && i < |r.events|
  {
    Admissible(r.states[i], r.events[i]) && Step(r.states[i], r.events[i], r.states[i + 1], r.outs[i])
  }

  ghost predicate IsRun(r: Run) {
    && |r.states| == |r.events| + 1 && |r.outs| == |r.events|
    && r.states[0].disk.None? && !r.states[0].up
    && forall i: nat {:trigger StepAt(r, i)} :: i < |r.events| ==> StepAt(r, i)
  }

  /** No reading of the run is more than skew behind an earlier one. */
  ghost predicate Skewed(r: Run, skew: nat) {
    forall i: nat {:trigger r.events[i]} :: i < |r.events| ==> ClockAt(r, i) - skew <= r.events[i].now
  }

  lemma {:induction false} ClockGrows(r: Run, i: nat, j: nat)
    requires i <= j <= |r.events|
    ensures 0 <= ClockAt(r, i) <= ClockAt(r, j)
  {
    if i < j {
      ClockGrows(r, i, j - 1);
    } else if i > 0 {
      ClockGrows(r, i - 1, i - 1);
    }
  }

  /** Every run has a skew, so what is said of all skews is said of all runs. */
  lemma EveryRunIsSkewed(r: Run)
    requires IsRun(r)
    ensures ClockAt(r, |r.events|) >= 0 && Skewed(r, ClockAt(r, |r.events|))
  {
    ClockGrows(r, 0, |r.events|);
    forall i: nat | i < |r.events| ensures ClockAt(r, i) - ClockAt(r, |r.events|) <= r.events[i].now {
      assert StepAt(r, i);
      ClockGrows(r, i, |r.events|);
    }
  }

  /** Crash consistency in every state of every run that starts without a file: readings in any
      order, restarts, failed writes, expiry and eviction included. */
  lemma {:induction false} RunIsConsistent(r: Run, i: nat, skew: nat)
    requires IsRun(r) && Skewed(r, skew) && i <= |r.events|
    ensures Consistent(r.states[i], ClockAt(r, i), skew)
  {
    if i > 0 {
      RunIsConsistent(r, i - 1, skew);
      assert StepAt(r, i - 1);
      StepKeepsConsistent(r.states[i - 1], r.events[i - 1], r.states[i], r.outs[i - 1], ClockAt(r, i - 1), skew);
    }
  }

  /** No login between the two events draws the same credential. */
  ghost predicate NotIssuedAgain(r: Run, i: nat, j: nat, d: Digest) {
    j <= |r.events| && forall k :: i <= k < j && r.events[k].Create? ==> r.events[k].session.digest != d
  }

  /** Every restart between the two events reads at least that time. */
  ghost predicate RestartsFrom(r: Run, i: nat, j: nat, until: int) {
    j <= |r.events| && forall k :: i <= k < j && r.events[k].Restart? ==> r.events[k].now >= until
  }

  lemma {:induction false} RunKeepsDead(r: Run, i: nat, j: nat, d: Digest, until: int)
    requires IsRun(r) && i <= j <= |r.events| && Dead(r.states[i], d, until)
    requires NotIssuedAgain(r, i, j, d) && RestartsFrom(r, i, j, until)
    ensures Dead(r.states[j], d, until)
  {
    if i < j {
      RunKeepsDead(r, i, j - 1, d, until);
      assert StepAt(r, j - 1);
      StepKeepsDead(r.states[j - 1], r.events[j - 1], r.states[j], r.outs[j - 1], d, until);
    }
  }

  lemma DeadStaysDenied(r: Run, i: nat, j: nat, d: Digest, until: int)
    requires IsRun(r) && i <= j < |r.events| && Dead(r.states[i], d, until)
    requires NotIssuedAgain(r, i, j, d) && RestartsFrom(r, i, j, until)
    requires r.events[j].Authenticate? && r.events[j].digest == d
    ensures r.outs[j] == Denied
  {
    RunKeepsDead(r, i, j, d, until);
    assert StepAt(r, j);
    DeadIsDenied(r.states[j], r.events[j], r.states[j + 1], r.outs[j], d, until);
  }

  lemma RevokedIsDead(r: Run, i: nat, d: Digest)
    requires IsRun(r) && i < |r.events|
    requires Revokes(r.states[i], r.events[i], r.states[i + 1], r.outs[i], d)
    ensures Dead(r.states[i + 1], d, 0)
  {
    EveryRunIsSkewed(r);
    RunIsConsistent(r, i, ClockAt(r, |r.events|));
    assert StepAt(r, i);
    RevocationKills(r.states[i], r.events[i], r.states[i + 1], r.outs[i], d);
  }

  /** Once a revocation has succeeded, its credentials never authenticate again, whatever
      fails, expires, is rolled back or restarted afterwards, and whatever the clock reads. */
  lemma RevokedForever(r: Run, i: nat, j: nat, d: Digest)
    requires IsRun(r) && i < j < |r.events|
    requires Revokes(r.states[i], r.events[i], r.states[i + 1], r.outs[i], d)
    requires r.events[j].Authenticate? && r.events[j].digest == d
    requires NotIssuedAgain(r, i + 1, j, d)
    ensures r.outs[j] == Denied
  {
    RevokedIsDead(r, i, d);
    forall k | i + 1 <= k < j && r.events[k].Restart? ensures r.events[k].now >= 0 {
      assert StepAt(r, k);
    }
    DeadStaysDenied(r, i + 1, j, d, 0);
  }

  /** A credential that is not in memory, be it found expired or never issued, is denied as long as
      restarts read a clock past all that was read before. */
  lemma ForgottenStaysOut(r: Run, i: nat, j: nat, d: Digest, skew: nat)
    requires IsRun(r) && Skewed(r, skew) && i <= j < |r.events|
    requires r.states[i].up && d !in r.states[i].sessions
    requires r.events[j].Authenticate? && r.events[j].digest == d
    requires NotIssuedAgain(r, i, j, d) && RestartsFrom(r, i, j, ClockAt(r, i) + skew)
    ensures r.outs[j] == Denied
  {
    RunIsConsistent(r, i, skew);
    DeadStaysDenied(r, i, j, d, ClockAt(r, i) + skew);
  }

  /** With readings in order, that is so of every continuation. */
  lemma ForgottenInOrder(r: Run, i: nat, j: nat, d: Digest)
    requires IsRun(r) && Skewed(r, 0) && i <= j < |r.events|
    requires r.states[i].up && d !in r.states[i].sessions
    requires r.events[j].Authenticate? && r.events[j].digest == d
    requires NotIssuedAgain(r, i, j, d)
    ensures r.outs[j] == Denied
  {
    forall k | i <= k < j && r.events[k].Restart? ensures r.events[k].now >= ClockAt(r, i) {
      ClockGrows(r, i, k);
    }
    ForgottenStaysOut(r, i, j, d, 0);
  }

  /** What a restart under the same token finds, when the file's sessions are all well formed. */
  ghost predicate ComesBack(s: Store, t: Store, now: int, clock: int, skew: nat) {
    && s.disk.Some? && s.persistedAt.Some?
    && t.sessions == Unexpired(s.disk.value.sessions, now)
    && (forall d :: d in t.sessions && d in s.sessions ==> SameIdentity(s.sessions[d], t.sessions[d]))
    && (forall d :: d in t.sessions && d !in s.sessions ==> now < t.sessions[d].expiresAt <= clock + skew)
    && (forall d ::
      d in s.sessions && s.sessions[d].lastSeenAt < s.persistedAt.value - skew && now < s.sessions[d].expiresAt ==>
      d in t.sessions && t.sessions[d] == s.sessions[d])
  }

  lemma RestartOf(s: Store, clock: int, e: Event, t: Store, out: Outcome, skew: nat)
    requires Consistent(s, clock, skew) && s.up && s.durable
    requires e.Restart? && e.token == s.token && e.readable && Step(s, e, t, out)
    ensures out == Succeeded ==> ComesBack(s, t, e.now, clock, skew)
    ensures e.writes ==> (out == Succeeded <==> AllWellFormed(s.validPath, s.disk.value.sessions))
  {
  }

  /** After a crash in any reachable state, a restart under the same token brings back exactly
      the sessions whose file copy has not expired, each under its identity in memory, and
      unchanged if its last use was before the last write. It is refused exactly when a session
      on file was last seen before its creation. */
  lemma RestartGivesBack(r: Run, i: nat, e: Event, t: Store, out: Outcome, skew: nat)
    requires IsRun(r) && Skewed(r, skew) && i <= |r.events| && r.states[i].up && r.states[i].durable
    requires e.Restart? && e.token == r.states[i].token && e.readable && Step(r.states[i], e, t, out)
    ensures out == Succeeded ==> ComesBack(r.states[i], t, e.now, ClockAt(r, i), skew)
    ensures e.writes ==>
      (out == Succeeded <==>
        forall d :: d in r.states[i].disk.value.sessions ==>
          r.states[i].disk.value.sessions[d].createdAt <= r.states[i].disk.value.sessions[d].lastSeenAt)
  {
    RunIsConsistent(r, i, skew);
    RestartOf(r.states[i], ClockAt(r, i), e, t, out, skew);
  }
}
