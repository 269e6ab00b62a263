/** The base path a registry is served under, as sessions remember it. */
module BasePath {
  import opened Collections
  import opened Text

  /** path.Clean on the parts of a rooted path: "" and "." vanish, ".." takes its predecessor
      away if there is one. */
  function ResolveRooted(parts: seq<string>, stack: seq<string>): seq<string> {
    if parts == [] then stack
    else if parts[0] == "" || parts[0] == "." then ResolveRooted(parts[1..], stack)
    else if parts[0] == ".." then ResolveRooted(parts[1..], if stack == [] then [] else stack[..|stack| - 1])
    else ResolveRooted(parts[1..], stack + [parts[0]])
  }

  function CleanRooted(path: string): string
    requires HasPrefix(path, "/")
  {
    "/" + Join(ResolveRooted(Split(path[1..], '/'), []), '/')
  }

  predicate PlainSegment(s: string) {
    s != "" && s != "." && s != ".."
  }

  predicate PlainSegments(segments: seq<string>) {
    forall s :: s in segments ==> PlainSegment(s)
  }

  /** registryBasePath: what a websocket request's path says of the base path. */
  function RegistryBasePath(request: string): Option<string> {
    if !HasPrefix(request, "/") || '\\' in request || CleanRooted(request) != request then None
    else if request == "/ws" then Some("/")
    else if !HasSuffix(request, "/ws") then None
    else
      var prefix := request[..|request| - 3];
      if prefix == "" || prefix == "/" then None
      else if !PlainSegments(Split(prefix[1..], '/')) then None
      else Some(prefix + "/")
  }

  /** validRegistryBasePath. */
  predicate ValidBasePath(path: string) {
    path != "" && HasSuffix(path, "/") && RegistryBasePath(path + "ws") == Some(path)
  }

  /** Plain segments between slashes, none of them holding a slash or a backslash. */
  ghost predicate Spells(path: string, segments: seq<string>) {
    && segments != [] && PlainSegments(segments)
    && (forall s :: s in segments ==> '/' !in s && '\\' !in s)
    && path == "/" + Join(segments, '/') + "/"
  }

  lemma {:induction false} ResolvePlain(parts: seq<string>, stack: seq<string>)
    requires PlainSegments(parts)
    ensures ResolveRooted(parts, stack) == stack + parts
    decreases |parts|
  {
    if parts == [] {
      assert stack + parts == stack;
    } else {
      assert parts[0] in parts && forall s :: s in parts[1..] ==> s in parts;
      ResolvePlain(parts[1..], stack + [parts[0]]);
      assert stack + [parts[0]] + parts[1..] == stack + parts;
    }
  }

  lemma {:induction false} JoinSnoc(parts: seq<string>, last: string)
    requires parts != []
    ensures Join(parts + [last], '/') == Join(parts, '/') + "/" + last
  {
    var all := parts + [last];
    if |parts| == 1 {
      assert all[1..] == [last];
    } else {
      assert all[1..] == parts[1..] + [last];
      JoinSnoc(parts[1..], last);
    }
  }

  lemma {:induction false} JoinNotEmpty(parts: seq<string>)
    requires parts != [] && PlainSegments(parts)
    ensures Join(parts, '/') != ""
  {
    assert parts[0] in parts;
  }

  lemma JoinNoBackslash(parts: seq<string>)
    requires forall s :: s in parts ==> '\\' !in s
    ensures '\\' !in Join(parts, '/')
  {
    if parts != [] {
      assert parts[0] in parts && forall s :: s in parts[1..] ==> s in parts;
      JoinNoBackslash(parts[1..]);
    }
  }

  /** A request under a spelled path is clean. */
  lemma SpelledIsClean(path: string, segments: seq<string>)
    requires Spells(path, segments)
    ensures CleanRooted(path + "ws") == path + "ws"
  {
    var parts, request := segments + ["ws"], path + "ws";
    assert "ws" == ['w', 's'];
    JoinSnoc(segments, "ws");
    assert request[1..] == Join(parts, '/');
    SplitJoin(parts, '/');
    ResolvePlain(parts, []);
    assert [] + parts == parts;
    assert request == "/" + request[1..];
  }

  lemma SpelledIsValid(path: string, segments: seq<string>)
    requires Spells(path, segments)
    ensures ValidBasePath(path)
  {
    var request, joined := path + "ws", Join(segments, '/');
    SpelledIsClean(path, segments);
    JoinNotEmpty(segments);
    JoinNoBackslash(segments);
    assert '\\' !in request;
    var prefix := request[..|request| - 3];
    assert request[|request| - 3..] == "/ws";
    assert prefix == "/" + joined && prefix[1..] == joined;
    SplitJoin(segments, '/');
    assert prefix + "/" == path;
  }

  lemma OnlySlash(path: string)
    requires HasSuffix(path, "/")
    ensures |path| == 1 ==> path == "/"
  {
    assert path[0..] == path;
  }

  lemma ValidIsSpelled(path: string)
    requires ValidBasePath(path) && path != "/"
    ensures exists segments :: Spells(path, segments)
  {
    var request := path + "ws";
    OnlySlash(path);
    assert |request| > |"/ws"|;
    var prefix := request[..|request| - 3];
    assert prefix + "/" == path;
    var segments := Split(prefix[1..], '/');
    SplitCharacters(prefix[1..], '/');
    JoinSplit(prefix[1..], '/');
    assert forall c :: c in prefix[1..] ==> c in request;
    assert path == "/" + Join(segments, '/') + "/";
    assert Spells(path, segments);
  }

  /** The check accepts "/" and exactly the paths that plain segments spell. */
  lemma ValidBasePathExactly(path: string)
    ensures ValidBasePath(path) <==> path == "/" || exists segments :: Spells(path, segments)
  {
    RootIsValid();
    forall segments | Spells(path, segments) ensures ValidBasePath(path) {
      SpelledIsValid(path, segments);
    }
    if ValidBasePath(path) && path != "/" {
      ValidIsSpelled(path);
    }
  }

  lemma RootIsValid()
    ensures ValidBasePath("/")
  {
    var ws := "ws";
    assert "/" + "ws" == "/ws" && "/ws"[1..] == ws;
    SplitOfPart(ws, '/');
    assert ws != "" && ws != "." && ws != "..";
    ResolvePlain([ws], []);
    assert [] + [ws] == [ws];
  }
}
