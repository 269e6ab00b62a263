/** webSessionStore: the sessions in memory and the file they are lazily written back to. */
module SessionStore {
  import opened Collections
  import opened Text
  import opened Sorting
  import opened Sessions
  import opened SessionUse
  import opened SessionFile

  datatype Info = Info(session: Session, current: bool)

  const BY_USE: (Info, Info) -> bool := (a: Info, b: Info) =>
    if a.current != b.current then a.current
    else if a.session.lastSeenAt == b.session.lastSeenAt then Less(a.session.deviceID, b.session.deviceID)
    else a.session.lastSeenAt > b.session.lastSeenAt

  const BY_TEXT: (string, string) -> bool := (a, b) => Less(a, b)

  /** The current session leads, recent use comes first, and device ids decide the rest. */
  ghost predicate InUseOrder(items: seq<Info>) {
    forall i, j :: 0 <= i < j < |items| ==>
      if items[i].current != items[j].current then items[i].current
      else
        || items[i].session.lastSeenAt > items[j].session.lastSeenAt
        || (items[i].session.lastSeenAt == items[j].session.lastSeenAt
          && Less(items[i].session.deviceID, items[j].session.deviceID))
  }

  ghost predicate InTextOrder(ids: seq<string>) {
    forall i, j :: 0 <= i < j < |ids| ==> Less(ids[i], ids[j])
  }

  /** The HMAC of a credential under the registry token. */
  datatype Csrf = Hmac(token: string, raw: string)

  /** The file is one that was written from the sessions of the image. */
  ghost predicate Holds(validPath: string -> bool, disk: Option<File>, image: Option<Image>) {
    && (disk.None? <==> image.None?)
    && (disk.Some? ==> disk.value.version == FILE_VERSION)
    && (disk.Some? ==> disk.value.fingerprint == image.value.fingerprint)
    && (disk.Some? ==> Shaped(validPath, image.value.sessions))
    && (disk.Some? ==> Encodes(disk.value.records, image.value.sessions))
  }

  class WebSessionStore {
    const token: string
    const durable: bool
    const validPath: string -> bool
    var sessions: map<Digest, Session>
    var persistedAt: Option<int>
    /** The file on disk, and the sessions it was written from. */
    var disk: Option<File>
    ghost var image: Option<Image>

    ghost function View(up: bool): Store
      reads this
    {
      Store(token, durable, validPath, up, sessions, persistedAt, image)
    }

    ghost predicate Valid()
      reads this
    {
      Shaped(validPath, sessions) && Holds(validPath, disk, image)
    }

    /** A new process finds the file of the last one. */
    constructor (token: string, durable: bool, validPath: string -> bool, disk: Option<File>,
        ghost image: Option<Image>)
      requires Holds(validPath, disk, image)
      ensures Valid() && View(false) == Store(token, durable, validPath, false, map[], None, image)
      ensures this.disk == disk
    {
      this.token, this.durable, this.validPath, this.disk, this.image := token, durable, validPath, disk, image;
      sessions, persistedAt := map[], None;
    }

    /** The records of the sessions in memory, in the order of the file. */
    method Records() returns (records: seq<Record>)
      requires Keyed(sessions)
      ensures Encodes(records, sessions) && InCreationOrder(records)
    {
      records := [];
      var left := sessions.Keys;
      while left != {}
        invariant left <= sessions.Keys
        invariant NoRepeats(records)
        invariant forall r :: r in records ==> (r.digest.Some? && r.digest.value in sessions && r.digest.value !in left
          && r == ToRecord(sessions[r.digest.value]))
        invariant forall d :: d in sessions && d !in left ==> ToRecord(sessions[d]) in records
        decreases left
      {
        var d := AnyOf(left);
        left := left - {d};
        assert sessions[d].digest == d;
        records := records + [ToRecord(sessions[d])];
      }
      SortedEncodes(records, sessions);
      records := Sort(BY_CREATION, records);
    }

    /** Write the whole file, or nothing. */
    method PersistLocked(now: int, writes: bool) returns (ok: bool)
      requires Shaped(validPath, sessions)
      modifies this`persistedAt, this`disk, this`image
      ensures old(Holds(validPath, disk, image)) ==> Holds(validPath, disk, image)
      ensures ok && durable ==> Holds(validPath, disk, image) && disk.Some? && InCreationOrder(disk.value.records)
      ensures !ok ==> disk == old(disk) && image == old(image)
      ensures ok <==> Persist(old(View(true)), sessions, now, writes).Some?
      ensures forall up :: old(View(up)).up == up ==>
        View(up) == if ok then Persist(old(View(up)), sessions, now, writes).value else old(View(up))
    {
      if !durable {
        persistedAt := Some(now);
        return true;
      }
      var records := Records();
      if !writes {
        return false;
      }
      disk := Some(File(FILE_VERSION, TokenFingerprint(token), records));
      image := Some(Image(TokenFingerprint(token), sessions));
      persistedAt := Some(now);
      ok := true;
    }

    /** Write the sessions in memory; if that fails, put the previous ones back. */
    method PersistOrUndo(previous: map<Digest, Session>, now: int, writes: bool) returns (ok: bool)
      requires Valid() && Shaped(validPath, previous)
      modifies this
      ensures Valid()
      ensures WrittenOrUndone(old(View(true)).(sessions := previous), old(sessions), now, writes, View(true), ok)
    {
      ok := PersistLocked(now, writes);
      if !ok {
        sessions := previous;
      }
    }

    /** Drop what has expired, and at capacity the session seen least recently. */
    method MakeRoom(now: int)
      requires Shaped(validPath, sessions)
      modifies this`sessions
      ensures Shaped(validPath, sessions)
      ensures MadeRoom(Unexpired(old(sessions), now), sessions)
      ensures |sessions| < MAX_SESSIONS
      ensures forall d :: d in sessions ==> d in old(sessions) && sessions[d] == old(sessions)[d]
    {
      RemoveExpired(now);
      ghost var kept := sessions;
      if |sessions| >= MAX_SESSIONS {
        RemoveOldest();
      }
      RoomIsSmall(kept, sessions);
    }

    method RemoveExpired(now: int)
      requires Shaped(validPath, sessions)
      modifies this`sessions
      ensures sessions == Unexpired(old(sessions), now) && Shaped(validPath, sessions)
    {
      DropExpired(now);
      ShapedPart(validPath, sessions, old(sessions));
    }

    /** The loop of removeExpiredLocked, over the sessions in any order. */
    method DropExpired(now: int)
      modifies this`sessions
      ensures sessions == Unexpired(old(sessions), now)
    {
      var left := sessions.Keys;
      while left != {}
        invariant left <= old(sessions).Keys
        invariant forall d :: d in sessions <==> d in old(sessions) && (d in left || now < old(sessions)[d].expiresAt)
        invariant forall d :: d in sessions ==> sessions[d] == old(sessions)[d]
        decreases left
      {
        var d := AnyOf(left);
        left := left - {d};
        if now >= sessions[d].expiresAt {
          sessions := sessions - {d};
        }
      }
    }

    /** The session that was seen least recently makes room. */
    method RemoveOldest()
      requires Shaped(validPath, sessions)
      modifies this`sessions
      ensures old(sessions) == map[] ==> sessions == old(sessions)
      ensures old(sessions) != map[] ==> exists d :: IsOldest(old(sessions), d) && sessions == old(sessions) - {d}
      ensures Shaped(validPath, sessions)
    {
      var oldest := FindOldest(sessions);
      if oldest.Some? {
        sessions := sessions - {oldest.value};
        ShapedPart(validPath, sessions, old(sessions));
      }
    }

    /** Create: raw and deviceID are fresh random values; writing may fail and undo it all. */
    method Create(raw: string, deviceID: string, name: string, basePath: string, ip: string, location: string,
        now: int, writes: bool) returns (ok: bool, csrf: Csrf)
      requires Valid() && now != 0
      requires deviceID != "" && Sha256(raw) !in sessions
      requires forall d :: d in sessions ==> sessions[d].deviceID != deviceID
      modifies this
      ensures Valid()
      ensures !validPath(basePath) ==> !ok && View(true) == old(View(true))
      ensures validPath(basePath) ==>
        CreateStep(old(View(true)), NewSession(raw, deviceID, name, basePath, ip, location, now), now, writes,
          View(true), if ok then Succeeded else Failed)
      ensures validPath(basePath) ==>
        FreshIn(old(View(true)), NewSession(raw, deviceID, name, basePath, ip, location, now), now)
      ensures ok ==> Sha256(raw) in sessions && sessions[Sha256(raw)] == Session(deviceID, Sha256(raw),
        if Trim(name) == "" then "Browser" else Trim(name), basePath, ip, location, now, now, now + DAYS_180)
      ensures csrf == Hmac(token, raw)
    {
      csrf := Hmac(token, raw);
      if !validPath(basePath) {
        return false, csrf;
      }
      NewSessionIsFresh(View(true), raw, deviceID, name, basePath, ip, location, now);
      hide FreshIn;
      hide Holds;
      hide Shaped;
      hide CreateStep;
      ok := Add(NewSession(raw, deviceID, name, basePath, ip, location, now), now, writes);
    }

    /** The locked part of Create. */
    method Add(session: Session, now: int, writes: bool) returns (ok: bool)
      requires Valid() && FreshIn(View(true), session, now)
      modifies this
      ensures Valid()
      ensures CreateStep(old(View(true)), session, now, writes, View(true), if ok then Succeeded else Failed)
      ensures ok ==> session.digest in sessions && sessions[session.digest] == session
    {
      hide Holds;
      hide MadeRoom;
      hide CreateStep;
      hide WrittenOrUndone;
      ghost var before := View(true);
      var previous := sessions;
      MakeRoom(now);
      ghost var room := sessions;
      RoomForOne(validPath, room, session);
      hide Shaped;
      sessions := sessions[session.digest := session];
      ok := PersistOrUndo(previous, now, writes);
      Created(before, room, session, now, writes, View(true), ok);
    }

    /** authenticate: a use slides the expiry, and is written back at most every five minutes. */
    method Authenticate(raw: string, basePath: string, now: int, writes: bool)
        returns (out: Outcome, csrf: Option<Csrf>)
      requires Valid()
      modifies this
      ensures Valid()
      ensures raw == "" ==> out == Denied && View(true) == old(View(true))
      ensures raw != "" ==> AuthenticateStep(old(View(true)), Sha256(raw), basePath, now, writes, View(true), out)
      ensures out.Granted? <==> raw != "" && LetsIn(old(View(true)), Sha256(raw), basePath, now, writes)
      ensures out.Granted? ==> out.session.digest == Sha256(raw) && (basePath == "" || out.session.basePath == basePath)
      ensures csrf == if out.Granted? then Some(Hmac(token, raw)) else None
    {
      out, csrf := LookUp(raw, basePath, now, writes);
      if raw != "" {
        GrantedByStep(old(View(true)), Sha256(raw), basePath, now, writes, View(true), out);
      }
      hide AuthenticateStep;
      hide LetsIn;
    }

    /** The body of authenticate. */
    method LookUp(raw: string, basePath: string, now: int, writes: bool)
        returns (out: Outcome, csrf: Option<Csrf>)
      requires Valid()
      modifies this
      ensures Valid()
      ensures raw == "" ==> out == Denied && View(true) == old(View(true))
      ensures raw != "" ==> AuthenticateStep(old(View(true)), Sha256(raw), basePath, now, writes, View(true), out)
      ensures csrf == if out.Granted? then Some(Hmac(token, raw)) else None
    {
      csrf := None;
      if raw == "" {
        return Denied, None;
      }
      var d := Sha256(raw);
      if d !in sessions {
        return Denied, None;
      }
      var session := sessions[d];
      if basePath != "" && session.basePath != basePath {
        return Denied, None;
      }
      if now >= session.expiresAt {
        ShapedPart(validPath, sessions - {d}, sessions);
        sessions := sessions - {d};
        var written := PersistLocked(now, writes);
        return Denied, None;
      }
      var previous := sessions;
      session := session.(lastSeenAt := now, expiresAt := now + SESSION_TTL);
      StillShaped(validPath, sessions, d, session);
      sessions := sessions[d := session];
      if persistedAt.None? || now - persistedAt.value >= PERSIST_INTERVAL {
        var ok := PersistOrUndo(previous, now, writes);
        if !ok {
          return Denied, None;
        }
      }
      return Granted(session), Some(Hmac(token, raw));
    }

    method Revoke(raw: string, now: int, writes: bool) returns (ok: bool)
      requires Valid()
      modifies this
      ensures Valid()
      ensures raw == "" ==> ok && View(true) == old(View(true))
      ensures raw != "" ==>
        RevokeStep(old(View(true)), Sha256(raw), now, writes, View(true), if ok then Succeeded else Failed)
    {
      if raw == "" {
        return true;
      }
      var d := Sha256(raw);
      if d !in sessions {
        return true;
      }
      var previous := sessions;
      ShapedPart(validPath, sessions - {d}, sessions);
      sessions := sessions - {d};
      ok := PersistOrUndo(previous, now, writes);
    }

    /** RevokeDevice: false without an error when no session has that device id. */
    method RevokeDevice(deviceID: string, now: int, writes: bool) returns (found: bool, ok: bool)
      requires Valid()
      modifies this
      ensures Valid()
      ensures RevokeDeviceStep(old(View(true)), deviceID, now, writes, View(true),
        if found then Succeeded else if ok then Denied else Failed)
    {
      if deviceID == "" {
        return false, true;
      }
      var left := sessions.Keys;
      while left != {}
        invariant left <= sessions.Keys && View(true) == old(View(true)) && Valid()
        invariant forall d :: d in sessions && d !in left ==> sessions[d].deviceID != deviceID
        decreases left
      {
        var d := AnyOf(left);
        left := left - {d};
        var session := sessions[d];
        if session.deviceID != deviceID {
          continue;
        }
        var previous := sessions;
        ShapedPart(validPath, sessions - {d}, sessions);
        sessions := sessions - {d};
        ok := PersistOrUndo(previous, now, writes);
        return ok, ok;
      }
      return false, true;
    }

    /** RevokeAll: the device ids of the sessions it removed, in order. */
    method RevokeAll(now: int, writes: bool) returns (ok: bool, deviceIDs: seq<string>)
      requires Valid()
      modifies this
      ensures Valid()
      ensures RevokeAllStep(old(View(true)), now, writes, View(true), if ok then Succeeded else Failed)
      ensures ok ==> InTextOrder(deviceIDs)
      ensures ok ==> forall x :: x in deviceIDs <==> exists d :: d in old(sessions) && old(sessions)[d].deviceID == x
    {
      if |sessions| == 0 {
        return true, [];
      }
      var previous := sessions;
      deviceIDs := DeviceIDs(validPath, sessions);
      sessions := map[];
      ok := PersistOrUndo(previous, now, writes);
      if !ok {
        deviceIDs := [];
      }
    }

    /** List: expired sessions go first; then the current one leads, and recent use comes first. */
    method List(currentDeviceID: string, now: int, writes: bool) returns (ok: bool, items: seq<Info>)
      requires Valid()
      modifies this
      ensures Valid()
      ensures ListStep(old(View(true)), now, writes, View(true), if ok then Succeeded else Failed)
      ensures ok ==> InUseOrder(items)
      ensures ok ==> forall i :: i in items <==> IsInfo(sessions, currentDeviceID, i)
    {
      items := [];
      var previous := sessions;
      RemoveExpired(now);
      if |previous| != |sessions| {
        ok := PersistOrUndo(previous, now, writes);
        if !ok {
          return false, [];
        }
      } else {
        SameSizePart(sessions, previous);
      }
      ok := true;
      items := Infos(validPath, sessions, currentDeviceID);
    }

    /** The records of a file, checked one by one. */
    method DecodeRecords(records: seq<Record>, now: int) returns (r: Result<Decoded>)
      ensures r == DecodeAll(validPath, records, now)
    {
      var loaded: map<Digest, Session> := map[];
      var deviceIDs: set<string> := {};
      var removedExpired := false;
      for i := 0 to |records|
        invariant DecodeAll(validPath, records[..i], now) == Ok(Decoded(loaded, deviceIDs, removedExpired))
      {
        assert records[..i + 1][..i] == records[..i];
        DecodeFails(validPath, records, now, i);
        var decoded := DecodeRecord(validPath, records[i]);
        if decoded.Err? {
          return Err(decoded.error);
        }
        var session := decoded.value;
        if session.digest in loaded {
          return Err(DuplicateDigest);
        }
        if session.deviceID in deviceIDs {
          return Err(DuplicateDevice);
        }
        deviceIDs := deviceIDs + {session.deviceID};
        if now >= session.expiresAt {
          removedExpired := true;
          continue;
        }
        loaded := loaded[session.digest := session];
      }
      assert records[..|records|] == records;
      r := Ok(Decoded(loaded, deviceIDs, removedExpired));
    }

    /** Load: a new process reads the file, or starts one. readable is whether the file can be
        inspected, secured, read and parsed as JSON. A file it does not believe leaves no
        session and is left alone. */
    method Load(readable: bool, now: int, writes: bool) returns (ok: bool)
      modifies this
      ensures old(Holds(validPath, disk, image)) ==> Valid()
      ensures old(Holds(validPath, disk, image)) ==>
        RestartStep(old(View(false)), token, readable, now, writes, View(ok), if ok then Succeeded else Failed)
      ensures durable && readable && old(disk).Some? && !Believed(validPath, token, old(disk).value, now) ==>
        (!ok && sessions == map[] && disk == old(disk))
    {
      sessions := map[];
      persistedAt := None;
      if !durable {
        persistedAt := Some(now);
        return true;
      }
      if !readable {
        return false;
      }
      if disk.None? {
        ok := PersistLocked(now, writes);
        return;
      }
      var file := disk.value;
      if file.version != FILE_VERSION {
        return false;
      }
      if |file.records| > MAX_SESSIONS {
        FileIsSmall(validPath, disk, image);
        return false;
      }
      if file.fingerprint != TokenFingerprint(token) {
        ok := PersistLocked(now, writes);
        return;
      }
      var decoded := DecodeRecords(file.records, now);
      if Holds(validPath, disk, image) {
        WrittenFileLoads(validPath, file.records, image.value.sessions, now);
        ShapedPart(validPath, Unexpired(image.value.sessions, now), image.value.sessions);
      }
      if decoded.Err? {
        return false;
      }
      DecodedShaped(validPath, file.records, now);
      sessions := decoded.value.loaded;
      persistedAt := Some(now);
      if decoded.value.removedExpired {
        ok := PersistLocked(now, writes);
        return;
      }
      ok := true;
    }
  }

  /** A file that loading accepts: the right version, few enough records, and either another
      token's file, which is replaced, or records that pass every check. */
  predicate Believed(validPath: string -> bool, token: string, file: File, now: int) {
    && file.version == FILE_VERSION && |file.records| <= MAX_SESSIONS
    && (file.fingerprint != TokenFingerprint(token) || DecodeAll(validPath, file.records, now).Ok?)
  }

  lemma FileIsSmall(validPath: string -> bool, disk: Option<File>, image: Option<Image>)
    requires disk.Some?
    ensures Holds(validPath, disk, image) ==> |disk.value.records| <= MAX_SESSIONS
  {
    if Holds(validPath, disk, image) {
      EncodesCount(disk.value.records, image.value.sessions);
    }
  }

  /** A bad record makes the whole file bad. */
  lemma {:induction false} DecodeFails(validPath: string -> bool, records: seq<Record>, now: int, i: nat)
    requires i < |records|
    ensures DecodeAll(validPath, records[..i + 1], now).Err? ==>
      DecodeAll(validPath, records, now) == DecodeAll(validPath, records[..i + 1], now)
    decreases |records| - i
  {
    if i + 1 == |records| {
      assert records[..i + 1] == records;
    } else {
      DecodeFails(validPath, records[..|records| - 1], now, i);
      assert records[..|records| - 1][..i + 1] == records[..i + 1];
    }
  }

  /** Whatever passes the checks of loading can be written again. */
  lemma {:induction false} DecodedShaped(validPath: string -> bool, records: seq<Record>, now: int)
    requires DecodeAll(validPath, records, now).Ok? && |records| <= MAX_SESSIONS
    ensures Shaped(validPath, DecodeAll(validPath, records, now).value.loaded)
    ensures |DecodeAll(validPath, records, now).value.loaded| <= |records|
    ensures forall d :: d in DecodeAll(validPath, records, now).value.loaded ==>
      DecodeAll(validPath, records, now).value.loaded[d].deviceID in DecodeAll(validPath, records, now).value.deviceIDs
  {
    if records != [] {
      var n := |records| - 1;
      DecodedShaped(validPath, records[..n], now);
      var state := DecodeAll(validPath, records[..n], now).value;
      var next := DecodeAll(validPath, records, now).value;
      NextShaped(validPath, state, records[n], now, next, n);
    }
  }

  lemma NextShaped(validPath: string -> bool, state: Decoded, r: Record, now: int, next: Decoded, n: nat)
    requires DecodeNext(validPath, state, r, now) == Ok(next) && n < MAX_SESSIONS
    requires Shaped(validPath, state.loaded) && |state.loaded| <= n
    requires forall d :: d in state.loaded ==> state.loaded[d].deviceID in state.deviceIDs
    ensures Shaped(validPath, next.loaded) && |next.loaded| <= n + 1
    ensures forall d :: d in next.loaded ==> next.loaded[d].deviceID in next.deviceIDs
  {
    DecodeSensible(validPath, r);
    var s := ToSession(r);
    if next.loaded != state.loaded {
      assert Complete(validPath, s) && next.loaded == state.loaded[s.digest := s];
      hide DecodeNext;
      RoomForOne(validPath, state.loaded, s);
      assert next.loaded.Keys == state.loaded.Keys + {s.digest};
    }
  }

  function NewSession(raw: string, deviceID: string, name: string, basePath: string, ip: string, location: string,
      now: int): Session
  {
    Session(deviceID, Sha256(raw), if Trim(name) == "" then "Browser" else Trim(name), basePath, ip, location,
      now, now, now + SESSION_TTL)
  }

  lemma NewSessionIsFresh(s: Store, raw: string, deviceID: string, name: string, basePath: string, ip: string,
      location: string, now: int)
    requires now != 0 && deviceID != "" && s.validPath(basePath) && Sha256(raw) !in s.sessions
    requires forall d :: d in s.sessions ==> s.sessions[d].deviceID != deviceID
    ensures FreshIn(s, NewSession(raw, deviceID, name, basePath, ip, location, now), now)
  {
  }

  lemma Created(s: Store, room: map<Digest, Session>, session: Session, now: int, writes: bool, t: Store, ok: bool)
    requires MadeRoom(Unexpired(s.sessions, now), room)
    requires WrittenOrUndone(s, room[session.digest := session], now, writes, t, ok)
    ensures CreateStep(s, session, now, writes, t, if ok then Succeeded else Failed)
    ensures ok ==> session.digest in t.sessions && t.sessions[session.digest] == session
  {
  }

  lemma RoomIsSmall(kept: map<Digest, Session>, room: map<Digest, Session>)
    requires MadeRoom(kept, room) && |kept| <= MAX_SESSIONS
    ensures |room| < MAX_SESSIONS && forall d :: d in room ==> d in kept && room[d] == kept[d]
  {
    if |kept| >= MAX_SESSIONS {
      var d :| IsOldest(kept, d) && room == kept - {d};
      assert room.Keys == kept.Keys - {d};
    }
  }

  lemma SameSizePart(m: map<Digest, Session>, n: map<Digest, Session>)
    requires |m| == |n| && forall d :: d in m ==> d in n && m[d] == n[d]
    ensures m == n
  {
    if d :| d in n && d !in m {
      assert m.Keys <= n.Keys - {d};
      SubsetSize(m.Keys, n.Keys - {d});
    }
  }

  /** Some session no other is older than. */
  method FindOldest(sessions: map<Digest, Session>) returns (oldest: Option<Digest>)
    ensures oldest.None? <==> sessions == map[]
    ensures oldest.Some? ==> IsOldest(sessions, oldest.value)
  {
    oldest := None;
    var left := sessions.Keys;
    while left != {}
      invariant left <= sessions.Keys
      invariant oldest.None? ==> left == sessions.Keys
      invariant oldest.Some? ==> oldest.value in sessions
      invariant oldest.Some? ==> forall d :: d in sessions && d !in left ==> !Older(sessions[d], sessions[oldest.value])
      decreases left
    {
      var d := AnyOf(left);
      left := left - {d};
      if oldest.None? || Older(sessions[d], sessions[oldest.value]) {
        if oldest.Some? {
          forall e | e in sessions && e !in left && e != d ensures !Older(sessions[e], sessions[d]) {
            OlderKeeps(sessions[e], sessions[oldest.value], sessions[d]);
          }
        }
        NotOlderThanItself(sessions[d]);
        oldest := Some(d);
      }
    }
  }

  ghost predicate IDsOf(ids: seq<string>, sessions: map<Digest, Session>, done: set<Digest>) {
    && NoRepeats(ids)
    && (forall d :: d in done && d in sessions ==> sessions[d].deviceID in ids)
    && (forall x :: x in ids ==> exists d :: d in done && d in sessions && sessions[d].deviceID == x)
  }

  lemma OneMoreID(validPath: string -> bool, ids: seq<string>, sessions: map<Digest, Session>, done: set<Digest>,
      d: Digest)
    requires Shaped(validPath, sessions) && IDsOf(ids, sessions, done) && d in sessions && d !in done
    ensures IDsOf(ids + [sessions[d].deviceID], sessions, done + {d})
  {
    forall i | 0 <= i < |ids| ensures ids[i] != sessions[d].deviceID {
      assert ids[i] in ids;
      var e :| e in done && e in sessions && sessions[e].deviceID == ids[i];
    }
    var more := ids + [sessions[d].deviceID];
    assert more[|ids|] == sessions[d].deviceID;
    forall x | x in more ensures exists e :: e in done + {d} && e in sessions && sessions[e].deviceID == x {
      if x in ids {
        var e :| e in done && e in sessions && sessions[e].deviceID == x;
        assert e in done + {d};
      } else {
        assert d in done + {d};
      }
    }
  }

  method DeviceIDs(validPath: string -> bool, sessions: map<Digest, Session>) returns (ids: seq<string>)
    requires Shaped(validPath, sessions)
    ensures InTextOrder(ids)
    ensures forall x :: x in ids <==> exists d :: d in sessions && sessions[d].deviceID == x
  {
    ids := [];
    var left := sessions.Keys;
    while left != {}
      invariant left <= sessions.Keys && IDsOf(ids, sessions, sessions.Keys - left)
      decreases left
    {
      hide Shaped;
      hide IDsOf;
      var d := AnyOf(left);
      OneMoreID(validPath, ids, sessions, sessions.Keys - left, d);
      assert sessions.Keys - left + {d} == sessions.Keys - (left - {d});
      left := left - {d};
      ids := ids + [sessions[d].deviceID];
    }
    SortedIDs(ids);
    ids := Sort(BY_TEXT, ids);
  }

  lemma SortedIDs(ids: seq<string>)
    requires NoRepeats(ids)
    ensures StrictlySorted(BY_TEXT, Sort(BY_TEXT, ids))
    ensures forall x :: x in Sort(BY_TEXT, ids) <==> x in ids
  {
    LessIsStrictTotalOrder();
    SortStrictlySorted(BY_TEXT, ids);
    SortElements(BY_TEXT, ids);
  }

  ghost predicate IsInfo(sessions: map<Digest, Session>, currentDeviceID: string, i: Info) {
    && i.session.digest in sessions && sessions[i.session.digest] == i.session
    && i.current == (i.session.deviceID == currentDeviceID)
  }

  lemma UseOrder(infos: set<Info>)
    requires forall a, b :: a in infos && b in infos && a != b ==> a.session.deviceID != b.session.deviceID
    ensures TotalOn(BY_USE, infos)
  {
    LessIsStrictTotalOrder();
  }

  method Infos(validPath: string -> bool, sessions: map<Digest, Session>, currentDeviceID: string)
      returns (items: seq<Info>)
    requires Shaped(validPath, sessions)
    ensures InUseOrder(items)
    ensures forall i :: i in items <==> IsInfo(sessions, currentDeviceID, i)
  {
    items := [];
    var left := sessions.Keys;
    while left != {}
      invariant left <= sessions.Keys && NoRepeats(items)
      invariant forall i :: i in items <==> IsInfo(sessions, currentDeviceID, i) && i.session.digest !in left
      decreases left
    {
      var d := AnyOf(left);
      left := left - {d};
      assert sessions[d].digest == d;
      items := items + [Info(sessions[d], sessions[d].deviceID == currentDeviceID)];
    }
    UseOrder(Elements(items));
    SortStrictlySorted(BY_USE, items);
    SortElements(BY_USE, items);
    items := Sort(BY_USE, items);
  }
}
