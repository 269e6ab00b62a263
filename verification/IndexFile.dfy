/** The file a project's path list is kept in while it is not in memory. */
module IndexFile {
  import opened Text
  import opened Sorting
  import opened PathClean

  const PATH_LESS: (string, string) -> bool := (a, b) => Less(a, b)

  /** What a scan or a load produces: sorted paths without repeats. */
  ghost predicate IsListing(paths: seq<string>) {
    StrictlySorted(PATH_LESS, paths)
  }

  lemma PathOrder(s: set<string>)
    ensures TotalOn(PATH_LESS, s)
  {
    LessIsStrictTotalOrder();
  }

  /** Cleaned lines in first-seen order, without "" and without repeats. */
  function Kept(lines: seq<string>, clean: string -> string, keep: string -> bool): seq<string> {
    if lines == [] then []
    else
      var front := Kept(lines[..|lines| - 1], clean, keep);
      var p := clean(lines[|lines| - 1]);
      if p == "" || p in front || !keep(p) then front else front + [p]
  }

  ghost predicate Reached(lines: seq<string>, clean: string -> string, p: string) {
    exists l :: l in lines && clean(l) == p
  }

  lemma {:induction false} KeptNoRepeats(lines: seq<string>, clean: string -> string, keep: string -> bool)
    ensures NoRepeats(Kept(lines, clean, keep))
  {
    if lines != [] {
      KeptNoRepeats(lines[..|lines| - 1], clean, keep);
    }
  }

  lemma {:induction false} KeptElement(lines: seq<string>, clean: string -> string, keep: string -> bool, p: string)
    ensures p in Kept(lines, clean, keep) <==> p != "" && keep(p) && Reached(lines, clean, p)
  {
    if lines != [] {
      var n := |lines| - 1;
      KeptElement(lines[..n], clean, keep, p);
      KeptElement(lines[..n], clean, keep, clean(lines[n]));
      assert lines[n] in lines;
      assert forall l :: l in lines <==> l in lines[..n] || l == lines[n];
    }
  }

  const CLEAN: string -> string := p => CleanPath(p)

  /** p is the cleaned form of one of the lines. */
  ghost predicate CleansTo(lines: seq<string>, p: string) {
    exists l :: l in lines && CleanPath(l) == p
  }

  /** Sorting the kept lines gives a listing. */
  function Listed(lines: seq<string>, keep: string -> bool): (paths: seq<string>)
    ensures IsListing(paths)
    ensures forall p :: p in paths <==> p != "" && keep(p) && CleansTo(lines, p)
  {
    KeptNoRepeats(lines, CLEAN, keep);
    var kept := Kept(lines, CLEAN, keep);
    assert forall p :: p in kept <==> p != "" && keep(p) && CleansTo(lines, p) by {
      forall p ensures p in kept <==> p != "" && keep(p) && CleansTo(lines, p) {
        KeptElement(lines, CLEAN, keep, p);
        if l :| l in lines && CleanPath(l) == p { assert CLEAN(l) == p; }
      }
    }
    PathOrder(Elements(kept));
    SortStrictlySorted(PATH_LESS, kept);
    SortElements(PATH_LESS, kept);
    Sort(PATH_LESS, kept)
  }

  /** normalizeProjectFileIndexPaths, and with a keep that accepts everything the body of
      parseProjectFileIndexLines: keep stands for the check that the path is a file. */
  method NormalizePaths(lines: seq<string>, keep: string -> bool) returns (paths: seq<string>)
    ensures paths == Listed(lines, keep)
  {
    var seen: set<string> := {};
    var out: seq<string> := [];
    for i := 0 to |lines|
      invariant out == Kept(lines[..i], CLEAN, keep)
      invariant forall p :: p in seen <==> p in out
    {
      assert lines[..i + 1][..i] == lines[..i];
      var clean := CleanPath(lines[i]);
      if clean == "" || clean in seen {
        continue;
      }
      if !keep(clean) {
        continue;
      }
      seen := seen + {clean};
      out := out + [clean];
    }
    assert lines[..|lines|] == lines;
    paths := Sort(PATH_LESS, out);
  }

  /** What writeIndexFile puts on disk. */
  function Render(paths: seq<string>): string {
    var content := Join(paths, '\n');
    if content != "" then content + ['\n'] else content
  }

  /** strings.ReplaceAll of "\r\n" by "\n". */
  function UnixNewlines(raw: string): string {
    if raw == "" then ""
    else if |raw| >= 2 && raw[0] == '\r' && raw[1] == '\n' then ['\n'] + UnixNewlines(raw[2..])
    else [raw[0]] + UnixNewlines(raw[1..])
  }

  const ANY_PATH: string -> bool := p => true

  /** parseProjectFileIndexLines. */
  function Parse(raw: string): (paths: seq<string>)
    ensures IsListing(paths)
  {
    Listed(Split(UnixNewlines(raw), '\n'), ANY_PATH)
  }

  method ParseLines(raw: string) returns (paths: seq<string>)
    ensures paths == Parse(raw)
  {
    paths := NormalizePaths(Split(UnixNewlines(raw), '\n'), ANY_PATH);
  }

  /** A path that survives being written and read back. */
  predicate Stable(p: string) {
    p != "" && '\n' !in p && CleanPath(p) == p
  }

  function StripReturn(p: string): string {
    if p != "" && p[|p| - 1] == '\r' then p[..|p| - 1] else p
  }

  function LinesOf(paths: seq<string>): seq<string> {
    if paths == [] then [""] else [StripReturn(paths[0])] + LinesOf(paths[1..])
  }

  lemma {:induction false} UnixNewlinesFirstLine(p: string, rest: string)
    requires '\n' !in p
    ensures UnixNewlines(p + ['\n'] + rest) == StripReturn(p) + ['\n'] + UnixNewlines(rest)
  {
    var s := p + ['\n'] + rest;
    if p == "" {
      assert s[1..] == rest;
    } else if p == "\r" {
      assert s[0] == '\r' && s[1] == '\n' && s[2..] == rest;
    } else {
      var tail := p[1..];
      assert p == [p[0]] + tail && forall c :: c in tail ==> c in p;
      UnixNewlinesFirstLine(tail, rest);
      assert s[1..] == tail + ['\n'] + rest;
      assert s[0] == p[0] && (s[0] == '\r' ==> s[1] == p[1] && p[1] in p);
      StripReturnCons(p[0], tail);
    }
  }

  lemma StripReturnCons(c: char, p: string)
    requires [c] + p != "\r"
    ensures StripReturn([c] + p) == [c] + StripReturn(p)
  {
  }

  lemma {:induction false} RenderedLines(paths: seq<string>)
    requires forall p :: p in paths ==> p != "" && '\n' !in p
    ensures Split(UnixNewlines(Render(paths)), '\n') == LinesOf(paths)
  {
    if paths != [] {
      assert paths[0] in paths;
      assert forall p :: p in paths[1..] ==> p in paths;
      RenderedLines(paths[1..]);
      var rest := Render(paths[1..]);
      assert Join(paths, '\n') != "";
      if |paths| > 1 {
        assert paths[1] in paths;
        assert Join(paths[1..], '\n') != "" by {
          if |paths[1..]| == 1 { assert paths[1..][0] == paths[1]; }
        }
        assert Render(paths) == paths[0] + ['\n'] + rest;
      } else {
        assert Render(paths) == paths[0] + ['\n'] + rest;
      }
      UnixNewlinesFirstLine(paths[0], rest);
      assert '\n' !in StripReturn(paths[0]);
      SplitAtFirst(StripReturn(paths[0]), '\n', UnixNewlines(rest));
    }
  }

  lemma CleanOfStripped(p: string)
    ensures CleanPath(StripReturn(p)) == CleanPath(p)
  {
    if StripReturn(p) != p {
      assert p == StripReturn(p) + ['\r'];
      CleanPathIgnoresCarriageReturn(StripReturn(p));
    }
  }

  lemma {:induction false} LinesOfElements(paths: seq<string>, line: string)
    ensures line in LinesOf(paths) <==> line == "" || exists p :: p in paths && StripReturn(p) == line
  {
    if paths != [] {
      LinesOfElements(paths[1..], line);
      assert paths[0] in paths;
      assert paths == [paths[0]] + paths[1..];
    }
  }

  /** Reading back a newline-free list gives exactly the cleaned forms of its paths. */
  lemma ParsedElements(paths: seq<string>, q: string)
    requires forall p :: p in paths ==> p != "" && '\n' !in p
    ensures q in Parse(Render(paths)) <==> q != "" && CleansTo(paths, q)
  {
    RenderedLines(paths);
    var lines := LinesOf(paths);
    if q in Parse(Render(paths)) {
      var l :| l in lines && CleanPath(l) == q;
      LinesOfElements(paths, l);
      assert CleanPath("") == "";
      var p :| p in paths && StripReturn(p) == l;
      CleanOfStripped(p);
    }
    if p :| q != "" && p in paths && CleanPath(p) == q {
      CleanOfStripped(p);
      LinesOfElements(paths, StripReturn(p));
    }
  }

  lemma ParsedPathsAreClean(raw: string)
    ensures forall p :: p in Parse(raw) ==> p != "" && '\n' !in p && '\\' !in p
  {
    forall p | p in Parse(raw) ensures '\n' !in p && '\\' !in p {
      var l :| l in Split(UnixNewlines(raw), '\n') && CleanPath(l) == p;
      SplitCharacters(UnixNewlines(raw), '\n');
      if '\n' in p { CleanPathCharacters(l, '\n'); }
      CleanPathNoBackslash(l);
    }
  }

  /** When cleaning maps a finite list onto itself it moves nothing: a longest path can
      only come from itself, and so on down. */
  lemma {:induction false} OntoMeansFixed(paths: seq<string>, p: string, longest: nat)
    requires p in paths
    requires forall q :: q in paths ==> |q| <= longest && '\\' !in q
    requires forall q :: q in paths ==> CleansTo(paths, q)
    ensures CleanPath(p) == p
    decreases longest - |p|
  {
    var r :| r in paths && CleanPath(r) == p;
    CleanPathShrinks(r);
    if |r| > |p| {
      OntoMeansFixed(paths, r, longest);
    }
  }

  ghost function Longest(paths: seq<string>): (n: nat)
    ensures forall p :: p in paths ==> |p| <= n
  {
    if paths == [] then 0
    else
      var m := Longest(paths[1..]);
      assert forall p :: p in paths ==> p == paths[0] || p in paths[1..];
      if |paths[0]| > m then |paths[0]| else m
  }

  /** The index file gives a listing back unchanged exactly when each of its paths is
      stable, so remembered positions survive releasing and reloading the list. */
  lemma RoundTrip(paths: seq<string>)
    requires IsListing(paths)
    ensures Parse(Render(paths)) == paths <==> forall p :: p in paths ==> Stable(p)
  {
    if Parse(Render(paths)) == paths {
      ParsedPathsAreClean(Render(paths));
      forall q | q in paths ensures CleansTo(paths, q) {
        ParsedElements(paths, q);
      }
      forall p | p in paths ensures Stable(p) {
        OntoMeansFixed(paths, p, Longest(paths));
      }
    }
    if forall p :: p in paths ==> Stable(p) {
      forall q ensures q in Parse(Render(paths)) <==> q in paths {
        ParsedElements(paths, q);
      }
      LessIsStrictTotalOrder();
      StrictlySortedUnique(PATH_LESS, Parse(Render(paths)), paths);
    }
  }

  /** A file name with a line break, which a directory walk reports, breaks the round trip. */
  lemma NewlineBreaksRoundTrip(paths: seq<string>, p: string)
    requires IsListing(paths) && p in paths && '\n' in p
    ensures Parse(Render(paths)) != paths && p !in Parse(Render(paths))
  {
    ParsedPathsAreClean(Render(paths));
    RoundTrip(paths);
  }

  /** Lines a reader counts: every newline ends one, and a last unended line counts too. */
  function CountLines(raw: string): nat {
    CountNewlines(raw) + if raw != "" && raw[|raw| - 1] != '\n' then 1 else 0
  }

  function CountNewlines(raw: string): nat {
    if raw == "" then 0 else CountNewlines(raw[..|raw| - 1]) + if raw[|raw| - 1] == '\n' then 1 else 0
  }

  lemma {:induction false} CountNewlinesConcat(a: string, b: string)
    ensures CountNewlines(a + b) == CountNewlines(a) + CountNewlines(b)
  {
    if b == "" {
      assert a + b == a;
    } else {
      var n := |b| - 1;
      assert (a + b)[..|a + b| - 1] == a + b[..n];
      CountNewlinesConcat(a, b[..n]);
    }
  }

  function Flatten(chunks: seq<string>): string {
    if chunks == [] then "" else Flatten(chunks[..|chunks| - 1]) + chunks[|chunks| - 1]
  }

  /** readProjectFileIndexMetadata: the count of lines, read one buffer at a time. */
  method CountStreamed(chunks: seq<string>) returns (count: nat)
    ensures count == CountLines(Flatten(chunks))
  {
    count := 0;
    var hasAny := false;
    var lastWasNewline := false;
    for i := 0 to |chunks|
      invariant count == CountNewlines(Flatten(chunks[..i]))
      invariant hasAny <==> Flatten(chunks[..i]) != ""
      invariant hasAny ==>
        (lastWasNewline <==> Flatten(chunks[..i])[|Flatten(chunks[..i])| - 1] == '\n')
    {
      var chunk := chunks[i];
      assert chunks[..i + 1][..i] == chunks[..i];
      ghost var before := Flatten(chunks[..i]);
      assert Flatten(chunks[..i + 1]) == before + chunk;
      if |chunk| > 0 {
        hasAny := true;
        ghost var start := count;
        for j := 0 to |chunk|
          invariant count == start + CountNewlines(chunk[..j])
        {
          assert chunk[..j + 1][..j] == chunk[..j];
          if chunk[j] == '\n' {
            count := count + 1;
          }
        }
        assert chunk[..|chunk|] == chunk;
        lastWasNewline := chunk[|chunk| - 1] == '\n';
      }
      CountNewlinesConcat(before, chunk);
    }
    assert chunks[..|chunks|] == chunks;
    if hasAny && !lastWasNewline {
      count := count + 1;
    }
  }

  lemma {:induction false} NoNewlines(p: string)
    requires '\n' !in p
    ensures CountNewlines(p) == 0
  {
    if p != "" {
      var n := |p| - 1;
      assert p[n] in p;
      assert forall c :: c in p[..n] ==> c in p;
      NoNewlines(p[..n]);
    }
  }

  /** The count shown before a list is loaded is the length it has once loaded. */
  lemma {:induction false} CountMatchesListing(paths: seq<string>)
    requires forall p :: p in paths ==> p != "" && '\n' !in p
    ensures CountLines(Render(paths)) == |paths|
    ensures Render(paths) != "" ==> Render(paths)[|Render(paths)| - 1] == '\n'
  {
    if paths != [] {
      assert paths[0] in paths;
      assert forall p :: p in paths[1..] ==> p in paths;
      CountMatchesListing(paths[1..]);
      RenderCons(paths);
      CountLine(paths[0], Render(paths[1..]));
    }
  }

  lemma RenderCons(paths: seq<string>)
    requires paths != [] && forall p :: p in paths ==> p != ""
    ensures Render(paths) == paths[0] + ['\n'] + Render(paths[1..])
  {
    assert paths[0] in paths;
    if |paths| > 1 {
      assert paths[1] in paths;
      if |paths[1..]| == 1 { assert paths[1..][0] == paths[1]; }
      assert Join(paths[1..], '\n') != "";
    }
  }

  lemma CountLine(line: string, rest: string)
    requires '\n' !in line
    ensures CountNewlines(line + ['\n'] + rest) == 1 + CountNewlines(rest)
  {
    CountNewlinesConcat(line + ['\n'], rest);
    CountNewlinesConcat(line, ['\n']);
    assert CountNewlines(['\n']) == 1 by { assert ['\n'][..0] == ""; }
    NoNewlines(line);
  }
}
