/** What callers get out of sessions over whole runs: who is let in, and whose sessions go. */
module SessionUse {
  import opened Collections
  import opened Text
  import opened Sessions

  const DAYS_180 := 15_552_000_000_000_000
  const MINUTES_5 := 300_000_000_000

  lemma StepOfRun(r: Run, i: nat)
    requires IsRun(r) && i < |r.events|
    ensures Admissible(r.states[i], r.events[i])
    ensures Step(r.states[i], r.events[i], r.states[i + 1], r.outs[i])
  {
    assert StepAt(r, i);
  }

  /** In memory, sessions sit under their digests, and no two are of one device. */
  lemma MemoryOfRun(r: Run, i: nat)
    requires IsRun(r) && i <= |r.events| && r.states[i].up
    ensures Shaped(r.states[i].validPath, r.states[i].sessions)
  {
    EveryRunIsSkewed(r);
    RunIsConsistent(r, i, ClockAt(r, |r.events|));
  }

  /** A session of that base path, or any when none is asked for, that has not expired. */
  predicate Usable(s: Store, d: Digest, basePath: string, now: int) {
    && d in s.sessions && now < s.sessions[d].expiresAt
    && (basePath == "" || s.sessions[d].basePath == basePath)
  }

  /** The session is usable, and the write succeeds if one is due. */
  predicate LetsIn(s: Store, d: Digest, basePath: string, now: int, writes: bool) {
    && Usable(s, d, basePath, now)
    && (writes || !s.durable || (s.persistedAt.Some? && now - s.persistedAt.value < MINUTES_5))
  }

  lemma GrantedByStep(s: Store, d: Digest, basePath: string, now: int, writes: bool, t: Store, out: Outcome)
    requires AuthenticateStep(s, d, basePath, now, writes, t, out) && Keyed(s.sessions)
    ensures out.Granted? <==> LetsIn(s, d, basePath, now, writes)
    ensures out.Granted? ==> out.session.digest == d && (basePath == "" || out.session.basePath == basePath)
  {
  }

  /** A use is granted exactly when the session is usable and its write, if one is due, succeeds. */
  lemma GrantedExactly(r: Run, i: nat)
    requires IsRun(r) && i < |r.events| && r.events[i].Authenticate?
    ensures var e := r.events[i];
      r.outs[i].Granted? <==> LetsIn(r.states[i], e.digest, e.basePath, e.now, e.writes)
  {
    StepOfRun(r, i);
  }

  /** Who is granted gets the session of the credential, of the base path asked for, extended by 180
      days from now; it is the one in memory from then on. */
  lemma GrantedRightly(r: Run, i: nat)
    requires IsRun(r) && i < |r.events| && r.events[i].Authenticate? && r.outs[i].Granted?
    ensures var e, x := r.events[i], r.outs[i].session;
      && x.digest == e.digest && (e.basePath != "" ==> x.basePath == e.basePath)
      && e.digest in r.states[i].sessions && SameIdentity(r.states[i].sessions[e.digest], x)
      && x.lastSeenAt == e.now && x.expiresAt == e.now + DAYS_180
      && r.states[i + 1].sessions == r.states[i].sessions[e.digest := x]
  {
    StepOfRun(r, i);
    MemoryOfRun(r, i);
  }

  /** A denied use leaves memory alone, but for a session that it finds expired. */
  lemma DeniedLeaves(r: Run, i: nat)
    requires IsRun(r) && i < |r.events| && r.events[i].Authenticate? && !r.outs[i].Granted?
    ensures var s, t, e := r.states[i], r.states[i + 1], r.events[i];
      r.outs[i] == Denied && forall d :: d in s.sessions ==>
        if d in t.sessions then t.sessions[d] == s.sessions[d]
        else d == e.digest && s.sessions[d].expiresAt <= e.now
    ensures var s, t, e := r.states[i], r.states[i + 1], r.events[i];
      e.digest in t.sessions && (e.basePath == "" || t.sessions[e.digest].basePath == e.basePath) ==>
        e.now < t.sessions[e.digest].expiresAt
  {
    StepOfRun(r, i);
  }

  /** A login that succeeds is in memory and can be used at once, wherever it was made. */
  lemma LoginCounts(r: Run, i: nat)
    requires IsRun(r) && i < |r.events| && r.events[i].Create? && r.outs[i] == Succeeded
    ensures var t, e := r.states[i + 1], r.events[i];
      Usable(t, e.session.digest, e.session.basePath, e.now) && t.sessions[e.session.digest] == e.session
  {
    StepOfRun(r, i);
    var s, e, t := r.states[i], r.events[i], r.states[i + 1];
    var room :| MadeRoom(Unexpired(s.sessions, e.now), room)
      && WrittenOrUndone(s, room[e.session.digest := e.session], e.now, e.writes, t, true);
  }

  /** What a login pushes out: sessions that have expired, and, when 1024 are left, one that was seen
      no later than any that stay. */
  lemma LoginPushesOut(r: Run, i: nat, d: Digest)
    requires IsRun(r) && i < |r.events| && r.events[i].Create? && r.outs[i] == Succeeded
    requires d in r.states[i].sessions
    ensures var s, t, e := r.states[i], r.states[i + 1], r.events[i];
      if d in t.sessions then t.sessions[d] == s.sessions[d] && e.now < s.sessions[d].expiresAt
      else s.sessions[d].expiresAt <= e.now || GoesFirst(s.sessions, t.sessions, d, e.now)
  {
    StepOfRun(r, i);
    MemoryOfRun(r, i);
    PushesOut(r.states[i], r.events[i], r.states[i + 1]);
  }

  /** By last use, then by creation, then by device id. */
  predicate SeenFirst(a: Session, b: Session) {
    if a.lastSeenAt != b.lastSeenAt then a.lastSeenAt < b.lastSeenAt
    else if a.createdAt != b.createdAt then a.createdAt < b.createdAt
    else !Less(b.deviceID, a.deviceID)
  }

  /** Memory is full of sessions that have not expired, and none that stays comes before d. */
  ghost predicate GoesFirst(before: map<Digest, Session>, after: map<Digest, Session>, d: Digest, now: int)
    requires d in before
  {
    && |Unexpired(before, now)| == 1024
    && forall k :: k in after && k in before ==> SeenFirst(before[d], before[k])
  }

  lemma PushesOut(s: Store, e: Event, t: Store)
    requires e.Create? && CreateStep(s, e.session, e.now, e.writes, t, Succeeded) && |s.sessions| <= 1024
    requires e.session.digest !in s.sessions
    ensures forall d :: d in s.sessions && d in t.sessions ==>
      t.sessions[d] == s.sessions[d] && e.now < s.sessions[d].expiresAt
    ensures forall d :: d in s.sessions && d !in t.sessions ==>
      s.sessions[d].expiresAt <= e.now || GoesFirst(s.sessions, t.sessions, d, e.now)
  {
    var kept := Unexpired(s.sessions, e.now);
    var room :| MadeRoom(kept, room)
      && WrittenOrUndone(s, room[e.session.digest := e.session], e.now, e.writes, t, true);
    SmallerMap(kept, s.sessions);
    PushedOut(kept, room);
  }

  lemma PushedOut(kept: map<Digest, Session>, room: map<Digest, Session>)
    requires MadeRoom(kept, room)
    ensures forall d :: d in room ==> d in kept && room[d] == kept[d]
    ensures forall d, k :: d in kept && d !in room && k in room ==> SeenFirst(kept[d], kept[k])
    ensures |kept| < 1024 ==> room == kept
  {
  }

  /** A revocation takes away the sessions it names and no others, or fails and leaves all. */
  predicate Named(e: Event, x: Session) {
    match e
    case Revoke(d, _, _) => x.digest == d
    case RevokeDevice(deviceID, _, _) => x.deviceID == deviceID
    case RevokeAll(_, _) => true
    case _ => false
  }

  lemma RevocationTakes(r: Run, i: nat, d: Digest)
    requires IsRun(r) && i < |r.events| && (r.events[i].Revoke? || r.events[i].RevokeDevice? || r.events[i].RevokeAll?)
    requires d in r.states[i].sessions
    ensures var s, t, e := r.states[i], r.states[i + 1], r.events[i];
      && (d in t.sessions <==> r.outs[i] != Succeeded || !Named(e, s.sessions[d]))
      && (d in t.sessions ==> t.sessions[d] == s.sessions[d])
  {
    StepOfRun(r, i);
    MemoryOfRun(r, i);
    var s, e, t := r.states[i], r.events[i], r.states[i + 1];
    if e.RevokeDevice? && t != s {
      var k :| k in s.sessions && s.sessions[k].deviceID == e.deviceID
        && WrittenOrUndone(s, s.sessions - {k}, e.now, e.writes, t, r.outs[i] == Succeeded);
    }
  }

  /** A call whose write succeeds succeeds itself, but for the revocation of a device that has no
      session. */
  lemma CallsSucceed(r: Run, i: nat)
    requires IsRun(r) && i < |r.events| && r.events[i].writes
    ensures r.events[i].Create? || r.events[i].Revoke? || r.events[i].RevokeAll? || r.events[i].List? ==>
      r.outs[i] == Succeeded
    ensures r.events[i].RevokeDevice? ==>
      (r.outs[i] == Succeeded <==>
        exists d :: d in r.states[i].sessions && r.states[i].sessions[d].deviceID == r.events[i].deviceID)
  {
    StepOfRun(r, i);
    if r.events[i].RevokeDevice? {
      MemoryOfRun(r, i);
    }
  }

  /** Listing the sessions drops exactly the expired ones, or fails and drops none. */
  lemma ListingDrops(r: Run, i: nat, d: Digest)
    requires IsRun(r) && i < |r.events| && r.events[i].List? && d in r.states[i].sessions
    ensures var s, t, e := r.states[i], r.states[i + 1], r.events[i];
      && (d in t.sessions <==> r.outs[i] != Succeeded || e.now < s.sessions[d].expiresAt)
      && (d in t.sessions ==> t.sessions[d] == s.sessions[d])
  {
    StepOfRun(r, i);
    var s, e := r.states[i], r.events[i];
    assert Unexpired(s.sessions, e.now) == s.sessions ==> d in Unexpired(s.sessions, e.now);
  }

  /** What of a file a restart takes over: nothing if there is none or it is another token's. */
  function TakenOver(s: Store, token: string): map<Digest, Session> {
    if s.durable && s.disk.Some? && s.disk.value.fingerprint == TokenFingerprint(token) then s.disk.value.sessions
    else map[]
  }

  /** Whether a restart has something to write: a first file, one for another token, or one without
      the sessions that have expired. */
  predicate Rewrites(s: Store, token: string, now: int) {
    && s.durable
    && (s.disk.None? || s.disk.value.fingerprint != TokenFingerprint(token)
      || exists d :: d in s.disk.value.sessions && s.disk.value.sessions[d].expiresAt <= now)
  }

  /** Nothing has to be read, or it can be and is well formed, and what has to be written can be. */
  predicate CanRestart(s: Store, e: Event)
    requires e.Restart?
  {
    || !s.durable
    || (e.readable && AllWellFormed(s.validPath, TakenOver(s, e.token)) && (e.writes || !Rewrites(s, e.token, e.now)))
  }

  /** A restart succeeds exactly when nothing has to be read, or the file can be, every session it takes
      over is well formed, and what it has to write it can. The store is then up with those of these
      sessions that have not expired, and the file holds them; otherwise the store is down and the file is
      as it was. */
  lemma RestartExactly(r: Run, i: nat)
    requires IsRun(r) && i < |r.events| && r.events[i].Restart?
    ensures var s, t, e := r.states[i], r.states[i + 1], r.events[i];
      && (r.outs[i] == Succeeded <==> CanRestart(s, e))
      && (t.up <==> r.outs[i] == Succeeded)
      && (t.up ==> t.token == e.token && t.sessions == Unexpired(TakenOver(s, e.token), e.now))
      && (t.up && s.durable ==> t.disk == Some(Image(TokenFingerprint(e.token), t.sessions)))
      && (!t.up ==> t.disk == s.disk)
  {
    StepOfRun(r, i);
    var s, e := r.states[i], r.events[i];
    var m := TakenOver(s, e.token);
    KeepsAll(m, e.now);
    assert Unexpired(map[], e.now) == map[];
  }

  lemma KeepsAll(m: map<Digest, Session>, now: int)
    ensures Unexpired(m, now) == m <==> forall d :: d in m ==> now < m[d].expiresAt
  {
    if Unexpired(m, now) == m {
      forall d | d in m ensures now < m[d].expiresAt {
        assert d in Unexpired(m, now);
      }
    }
  }
}
