/** The session file: what is written, and the checks a file passes before it is believed. */
module SessionFile {
  import opened Collections
  import opened Text
  import opened Sorting
  import opened Sessions

  /** A stored record; digest is None when its text is not a base64 digest. */
  datatype Record = Record(deviceID: string, digest: Option<Digest>, deviceName: string, basePath: string,
    loginIP: string, loginLocation: string, createdAt: int, lastSeenAt: int, expiresAt: int)

  datatype File = File(version: int, fingerprint: Fingerprint, records: seq<Record>)

  datatype LoadError = InvalidDigest | InvalidMetadata | DuplicateDigest | DuplicateDevice
  datatype Decoded = Decoded(loaded: map<Digest, Session>, deviceIDs: set<string>, removedExpired: bool)
  datatype Result<T> = Ok(value: T) | Err(error: LoadError)

  const FILE_VERSION := 1

  const BY_CREATION: (Record, Record) -> bool := (a: Record, b: Record) =>
    if a.createdAt == b.createdAt then Less(a.deviceID, b.deviceID) else a.createdAt < b.createdAt

  /** By the time of creation, then by device id. */
  ghost predicate InCreationOrder(records: seq<Record>) {
    forall i, j :: 0 <= i < j < |records| ==>
      || records[i].createdAt < records[j].createdAt
      || (records[i].createdAt == records[j].createdAt && !Less(records[j].deviceID, records[i].deviceID))
  }

  function ToRecord(s: Session): Record {
    Record(s.deviceID, Some(s.digest), s.deviceName, s.basePath, s.loginIP, s.loginLocation,
      s.createdAt, s.lastSeenAt, s.expiresAt)
  }

  function ToSession(r: Record): Session
    requires r.digest.Some?
  {
    Session(r.deviceID, r.digest.value, r.deviceName, r.basePath, r.loginIP, r.loginLocation,
      r.createdAt, r.lastSeenAt, r.expiresAt)
  }

  /** decodePersistedDeviceSession. */
  function DecodeRecord(validPath: string -> bool, r: Record): Result<Session> {
    if r.digest.None? then Err(InvalidDigest)
    else if r.deviceID == "" || r.deviceName == "" || !validPath(r.basePath) || r.createdAt == 0
      || r.lastSeenAt < r.createdAt || r.expiresAt <= r.lastSeenAt then Err(InvalidMetadata)
    else Ok(ToSession(r))
  }

  /** A session's record loads exactly when the session is well formed. */
  lemma RecordLoads(validPath: string -> bool, s: Session)
    ensures DecodeRecord(validPath, ToRecord(s)).Ok? <==> WellFormed(validPath, s)
    ensures DecodeRecord(validPath, ToRecord(s)).Ok? ==> DecodeRecord(validPath, ToRecord(s)) == Ok(s)
  {
  }

  /** One record of the load loop. */
  function DecodeNext(validPath: string -> bool, state: Decoded, r: Record, now: int): Result<Decoded> {
    match DecodeRecord(validPath, r)
    case Err(e) => Err(e)
    case Ok(s) =>
      if s.digest in state.loaded then Err(DuplicateDigest)
      else if s.deviceID in state.deviceIDs then Err(DuplicateDevice)
      else
        var seen := state.(deviceIDs := state.deviceIDs + {s.deviceID});
        if now >= s.expiresAt then Ok(seen.(removedExpired := true))
        else Ok(seen.(loaded := state.loaded[s.digest := s]))
  }

  function DecodeAll(validPath: string -> bool, records: seq<Record>, now: int): Result<Decoded> {
    if records == [] then Ok(Decoded(map[], {}, false))
    else
      match DecodeAll(validPath, records[..|records| - 1], now)
      case Err(e) => Err(e)
      case Ok(state) => DecodeNext(validPath, state, records[|records| - 1], now)
  }

  /** records are the sessions, each once, in some order. */
  ghost predicate Encodes(records: seq<Record>, sessions: map<Digest, Session>) {
    && NoRepeats(records)
    && (forall r :: r in records ==>
      r.digest.Some? && r.digest.value in sessions && r == ToRecord(sessions[r.digest.value]))
    && (forall d :: d in sessions ==> ToRecord(sessions[d]) in records)
  }

  /** Sessions that a load accepts once they are written. */
  ghost predicate Writable(validPath: string -> bool, m: map<Digest, Session>) {
    Keyed(m) && DistinctDevices(m) && AllWellFormed(validPath, m)
  }

  /** The sessions of the first n records. */
  ghost predicate DecodedSoFar(records: seq<Record>, n: nat, sessions: map<Digest, Session>, now: int, state: Decoded)
    requires n <= |records|
  {
    && (forall d :: d in state.loaded <==>
      d in sessions && now < sessions[d].expiresAt && ToRecord(sessions[d]) in records[..n])
    && (forall d :: d in state.loaded ==> state.loaded[d] == sessions[d])
    && (forall x :: x in state.deviceIDs <==> exists k :: 0 <= k < n && records[k].deviceID == x)
    && (state.removedExpired <==> exists k :: 0 <= k < n && now >= records[k].expiresAt)
  }

  lemma EncodedRecord(validPath: string -> bool, records: seq<Record>, sessions: map<Digest, Session>, n: nat)
    requires Writable(validPath, sessions) && Encodes(records, sessions) && n < |records|
    ensures records[n].digest.Some? && records[n].digest.value in sessions
    ensures var s := sessions[records[n].digest.value];
      records[n] == ToRecord(s) && DecodeRecord(validPath, records[n]) == Ok(s) && s.digest == records[n].digest.value
    ensures ToRecord(sessions[records[n].digest.value]) !in records[..n]
    ensures forall k :: 0 <= k < n ==> records[k].deviceID != records[n].deviceID
  {
    assert records[n] in records;
    var d := records[n].digest.value;
    assert WellFormed(validPath, sessions[d]);
    forall k | 0 <= k < n ensures records[k].deviceID != records[n].deviceID {
      assert records[k] in records;
      var e := records[k].digest.value;
      assert records[k] != records[n];
      assert e != d;
    }
  }

  lemma DecodeAllSnoc(validPath: string -> bool, records: seq<Record>, now: int, n: nat, state: Decoded)
    requires n < |records| && DecodeAll(validPath, records[..n], now) == Ok(state)
    ensures DecodeAll(validPath, records[..n + 1], now) == DecodeNext(validPath, state, records[n], now)
  {
    assert records[..n + 1][..n] == records[..n];
  }

  lemma NoneDecoded(records: seq<Record>, sessions: map<Digest, Session>, now: int)
    ensures DecodedSoFar(records, 0, sessions, now, Decoded(map[], {}, false))
  {
  }

  lemma {:induction false} DecodesPrefix(validPath: string -> bool, records: seq<Record>,
      sessions: map<Digest, Session>, now: int, n: nat)
    returns (state: Decoded)
    requires Writable(validPath, sessions) && Encodes(records, sessions) && n <= |records|
    ensures DecodeAll(validPath, records[..n], now) == Ok(state) && DecodedSoFar(records, n, sessions, now, state)
  {
    if n == 0 {
      state := Decoded(map[], {}, false);
      NoneDecoded(records, sessions, now);
    } else {
      var before := DecodesPrefix(validPath, records, sessions, now, n - 1);
      DecodeAllSnoc(validPath, records, now, n - 1, before);
      state := NextDecoded(validPath, records, sessions, now, n - 1, before);
    }
  }

  lemma NextDecoded(validPath: string -> bool, records: seq<Record>, sessions: map<Digest, Session>, now: int, n: nat,
      state: Decoded)
    returns (next: Decoded)
    requires Writable(validPath, sessions) && Encodes(records, sessions) && n < |records|
    requires DecodedSoFar(records, n, sessions, now, state)
    ensures DecodeNext(validPath, state, records[n], now) == Ok(next)
    ensures DecodedSoFar(records, n + 1, sessions, now, next)
  {
    EncodedRecord(validPath, records, sessions, n);
    var s := sessions[records[n].digest.value];
    next := DecodeNext(validPath, state, records[n], now).value;
    NextLoaded(records, sessions, now, n, state, s, next);
    forall x ensures x in next.deviceIDs <==> exists k :: 0 <= k < n + 1 && records[k].deviceID == x {
      if x == s.deviceID { assert records[n].deviceID == x; }
    }
  }

  lemma NextLoaded(records: seq<Record>, sessions: map<Digest, Session>, now: int, n: nat, state: Decoded, s: Session,
      next: Decoded)
    requires n < |records| && DecodedSoFar(records, n, sessions, now, state)
    requires Keyed(sessions) && s.digest in sessions && sessions[s.digest] == s
    requires records[n] == ToRecord(s)
    requires next.loaded == if now >= s.expiresAt then state.loaded else state.loaded[s.digest := s]
    ensures forall d :: d in next.loaded <==>
      d in sessions && now < sessions[d].expiresAt && ToRecord(sessions[d]) in records[..n + 1]
    ensures forall d :: d in next.loaded ==> next.loaded[d] == sessions[d]
  {
    assert records[..n + 1] == records[..n] + [records[n]];
    forall d | d in sessions ensures ToRecord(sessions[d]) == records[n] <==> d == s.digest {
      assert sessions[d].digest == d;
    }
  }

  lemma AllDecoded(records: seq<Record>, sessions: map<Digest, Session>, now: int, state: Decoded)
    requires Encodes(records, sessions)
    requires DecodedSoFar(records, |records|, sessions, now, state)
    ensures state.loaded == Unexpired(sessions, now)
    ensures state.removedExpired <==> Unexpired(sessions, now) != sessions
  {
    assert records[..|records|] == records;
    ExpiredRecords(records, sessions, now);
  }

  /** A record has expired just when not all the sessions are unexpired. */
  lemma ExpiredRecords(records: seq<Record>, sessions: map<Digest, Session>, now: int)
    requires Encodes(records, sessions)
    ensures (exists k :: 0 <= k < |records| && now >= records[k].expiresAt) <==> Unexpired(sessions, now) != sessions
  {
    if k :| 0 <= k < |records| && now >= records[k].expiresAt {
      assert records[k] in records;
      assert records[k].digest.value !in Unexpired(sessions, now);
    } else {
      forall d | d in sessions ensures now < sessions[d].expiresAt {
        var r := ToRecord(sessions[d]);
        var k :| 0 <= k < |records| && records[k] == r;
      }
    }
  }

  lemma GoodFileLoads(validPath: string -> bool, records: seq<Record>, sessions: map<Digest, Session>, now: int)
    requires Writable(validPath, sessions) && Encodes(records, sessions)
    ensures DecodeAll(validPath, records, now).Ok?
    ensures DecodeAll(validPath, records, now).value.loaded == Unexpired(sessions, now)
    ensures DecodeAll(validPath, records, now).value.removedExpired <==> Unexpired(sessions, now) != sessions
  {
    var state := DecodesPrefix(validPath, records, sessions, now, |records|);
    assert records[..|records|] == records;
    AllDecoded(records, sessions, now, state);
  }

  /** One bad record spoils the whole file. */
  lemma {:induction false} EachDecodes(validPath: string -> bool, records: seq<Record>, now: int, k: nat)
    requires DecodeAll(validPath, records, now).Ok? && k < |records|
    ensures DecodeRecord(validPath, records[k]).Ok?
  {
    if k < |records| - 1 {
      EachDecodes(validPath, records[..|records| - 1], now, k);
    }
  }

  /** Round trip: a file written from sessions of distinct devices passes every check of a later load
      exactly when each of them is well formed, and then gives back those that have not expired. */
  lemma WrittenFileLoads(validPath: string -> bool, records: seq<Record>, sessions: map<Digest, Session>, now: int)
    requires Keyed(sessions) && DistinctDevices(sessions) && Encodes(records, sessions)
    ensures DecodeAll(validPath, records, now).Ok? <==> AllWellFormed(validPath, sessions)
    ensures AllWellFormed(validPath, sessions) ==>
      DecodeAll(validPath, records, now).value.loaded == Unexpired(sessions, now)
    ensures AllWellFormed(validPath, sessions) ==>
      (DecodeAll(validPath, records, now).value.removedExpired <==> Unexpired(sessions, now) != sessions)
  {
    if AllWellFormed(validPath, sessions) {
      GoodFileLoads(validPath, records, sessions, now);
    } else if DecodeAll(validPath, records, now).Ok? {
      forall d | d in sessions ensures WellFormed(validPath, sessions[d]) {
        var r := ToRecord(sessions[d]);
        var k :| 0 <= k < |records| && records[k] == r;
        EachDecodes(validPath, records, now, k);
        RecordLoads(validPath, sessions[d]);
      }
    }
  }

  lemma EncodesFront(records: seq<Record>, sessions: map<Digest, Session>, n: nat)
    requires |records| == n + 1 && Encodes(records, sessions) && Keyed(sessions)
    ensures records[n].digest.Some? && records[n].digest.value in sessions
    ensures Encodes(records[..n], sessions - {records[n].digest.value})
  {
    assert records[n] in records;
    var d := records[n].digest.value;
    var rest := sessions - {d};
    forall r | r in records[..n]
      ensures r.digest.Some? && r.digest.value in rest && r == ToRecord(rest[r.digest.value])
    {
      var k :| 0 <= k < n && records[k] == r;
      assert r in records && r != records[n];
    }
    forall e | e in rest ensures ToRecord(rest[e]) in records[..n] {
      var r := ToRecord(sessions[e]);
      var k :| 0 <= k < |records| && records[k] == r;
      assert r.digest == Some(e);
    }
  }

  /** As many records as sessions. */
  lemma {:induction false} EncodesCount(records: seq<Record>, sessions: map<Digest, Session>)
    requires Encodes(records, sessions) && Keyed(sessions)
    ensures |records| == |sessions|
  {
    if records == [] {
      assert sessions.Keys == {};
    } else {
      var n := |records| - 1;
      EncodesFront(records, sessions, n);
      var d := records[n].digest.value;
      EncodesCount(records[..n], sessions - {d});
      assert sessions.Keys == (sessions - {d}).Keys + {d};
    }
  }

  lemma SortedEncodes(records: seq<Record>, sessions: map<Digest, Session>)
    requires Encodes(records, sessions)
    ensures Encodes(Sort(BY_CREATION, records), sessions) && InCreationOrder(Sort(BY_CREATION, records))
  {
    LessIsStrictTotalOrder();
    SortSorted(BY_CREATION, records);
    SortElements(BY_CREATION, records);
    SortNoRepeats(BY_CREATION, records);
  }

  /** A record that makes sense by itself. */
  predicate Sensible(validPath: string -> bool, r: Record) {
    && r.digest.Some? && r.deviceID != "" && r.deviceName != "" && validPath(r.basePath)
    && r.createdAt != 0 && r.createdAt <= r.lastSeenAt < r.expiresAt
  }

  /** Two records that may stand in one file in this order: of different devices, and of different
      credentials unless the first has expired. */
  predicate Compatible(a: Record, b: Record, now: int) {
    a.deviceID != b.deviceID && (a.digest == b.digest ==> a.expiresAt <= now)
  }

  ghost predicate Acceptable(validPath: string -> bool, records: seq<Record>, now: int) {
    && (forall k :: 0 <= k < |records| ==> Sensible(validPath, records[k]))
    && (forall j, k :: 0 <= j < k < |records| ==> Compatible(records[j], records[k], now))
  }

  /** What is loaded from a file: the sessions of the records that have not expired, each as recorded. */
  ghost predicate Collected(records: seq<Record>, now: int, state: Decoded) {
    && (forall x :: x in state.deviceIDs <==> HasDevice(records, x))
    && (forall d :: d in state.loaded <==> HasLive(records, now, d))
    && (forall d :: d in state.loaded ==> HasRecord(records, state.loaded[d]) && state.loaded[d].digest == d)
    && (state.removedExpired <==> exists k :: 0 <= k < |records| && records[k].expiresAt <= now)
  }

  ghost predicate HasDevice(records: seq<Record>, id: string) {
    exists k :: 0 <= k < |records| && records[k].deviceID == id
  }

  ghost predicate HasLive(records: seq<Record>, now: int, d: Digest) {
    exists k :: 0 <= k < |records| && records[k].digest == Some(d) && now < records[k].expiresAt
  }

  ghost predicate HasRecord(records: seq<Record>, s: Session) {
    exists k :: 0 <= k < |records| && records[k] == ToRecord(s)
  }

  lemma HasOneMore(front: seq<Record>, r: Record, now: int)
    ensures forall x :: HasDevice(front + [r], x) <==> HasDevice(front, x) || r.deviceID == x
    ensures forall d :: HasLive(front + [r], now, d) <==>
      HasLive(front, now, d) || (r.digest == Some(d) && now < r.expiresAt)
    ensures forall s :: HasRecord(front + [r], s) <==> HasRecord(front, s) || r == ToRecord(s)
  {
    var all := front + [r];
    assert all[|front|] == r && forall k :: 0 <= k < |front| ==> all[k] == front[k];
  }

  lemma DecodeSensible(validPath: string -> bool, r: Record)
    ensures DecodeRecord(validPath, r).Ok? <==> Sensible(validPath, r)
    ensures Sensible(validPath, r) ==>
      ToRecord(DecodeRecord(validPath, r).value) == r && r.digest == Some(DecodeRecord(validPath, r).value.digest)
  {
  }

  ghost predicate Joins(validPath: string -> bool, front: seq<Record>, r: Record, now: int) {
    Sensible(validPath, r) && forall j :: 0 <= j < |front| ==> Compatible(front[j], r, now)
  }

  lemma AcceptableOneMore(validPath: string -> bool, front: seq<Record>, r: Record, now: int)
    ensures Acceptable(validPath, front + [r], now) <==>
      Acceptable(validPath, front, now) && Joins(validPath, front, r, now)
  {
    var all := front + [r];
    hide Sensible;
    hide Compatible;
    assert all[|front|] == r && forall k :: 0 <= k < |front| ==> all[k] == front[k];
    if Acceptable(validPath, all, now) {
      forall k | 0 <= k < |front| ensures Sensible(validPath, front[k]) && Compatible(all[k], all[|front|], now) {
        assert front[k] == all[k];
      }
    }
  }

  /** The next record is taken exactly when it is sensible and goes with those before. */
  lemma NextExactly(validPath: string -> bool, front: seq<Record>, r: Record, now: int, state: Decoded)
    requires Collected(front, now, state)
    ensures DecodeNext(validPath, state, r, now).Ok? <==>
      Joins(validPath, front, r, now)
  {
    DecodeSensible(validPath, r);
    if Sensible(validPath, r) {
      assert r.digest.value in state.loaded <==> HasLive(front, now, r.digest.value);
      assert r.deviceID in state.deviceIDs <==> HasDevice(front, r.deviceID);
    }
  }

  lemma NextCollected(validPath: string -> bool, front: seq<Record>, r: Record, now: int, state: Decoded)
    requires Collected(front, now, state) && DecodeNext(validPath, state, r, now).Ok?
    ensures Collected(front + [r], now, DecodeNext(validPath, state, r, now).value)
  {
    DecodeSensible(validPath, r);
    HasOneMore(front, r, now);
    var all := front + [r];
    assert all[|front|] == r && forall k :: 0 <= k < |front| ==> all[k] == front[k];
    hide HasDevice;
    hide HasLive;
    hide HasRecord;
  }

  lemma NothingLoads(validPath: string -> bool, now: int)
    ensures Acceptable(validPath, [], now) && Collected([], now, Decoded(map[], {}, false))
  {
  }

  lemma DecodeLast(validPath: string -> bool, front: seq<Record>, r: Record, now: int)
    ensures var before := DecodeAll(validPath, front, now);
      DecodeAll(validPath, front + [r], now) ==
        if before.Err? then Err(before.error) else DecodeNext(validPath, before.value, r, now)
  {
    assert (front + [r])[..|front|] == front;
  }

  /** Any file, written by anybody: its records load exactly when each is sensible and any two are
      compatible, and then give the sessions that have not expired. */
  lemma {:induction false} LoadsExactly(validPath: string -> bool, records: seq<Record>, now: int)
    ensures DecodeAll(validPath, records, now).Ok? <==> Acceptable(validPath, records, now)
    ensures Acceptable(validPath, records, now) ==> Collected(records, now, DecodeAll(validPath, records, now).value)
  {
    hide Acceptable;
    hide Collected;
    hide DecodeNext;
    hide Joins;
    if records == [] {
      NothingLoads(validPath, now);
    } else {
      var n := |records| - 1;
      var front, r := records[..n], records[n];
      assert records == front + [r];
      LoadsExactly(validPath, front, now);
      AcceptableOneMore(validPath, front, r, now);
      DecodeLast(validPath, front, r, now);
      if DecodeAll(validPath, front, now).Ok? {
        NextExactly(validPath, front, r, now, DecodeAll(validPath, front, now).value);
        if DecodeAll(validPath, records, now).Ok? {
          NextCollected(validPath, front, r, now, DecodeAll(validPath, front, now).value);
        }
      }
    }
  }
}
