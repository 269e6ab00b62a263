/** cleanProjectFileIndexPath: the lexical clean-up every indexed path goes through. */
module PathClean {
  import opened Collections
  import opened Text

  /** filepath.Clean on the parts of a relative path: "." and "" vanish, ".." takes its
      predecessor away unless there is none or it is ".." itself. */
  function Resolve(parts: seq<string>, stack: seq<string>): seq<string> {
    if parts == [] then stack
    else if parts[0] == "" || parts[0] == "." then Resolve(parts[1..], stack)
    else if parts[0] == ".." && stack != [] && stack[|stack| - 1] != ".." then
      Resolve(parts[1..], stack[..|stack| - 1])
    else Resolve(parts[1..], stack + [parts[0]])
  }

  /** The cleaned path, or "" for a path the index refuses: empty, absolute, or leaving
      the project root. */
  function CleanPath(path: string): string {
    var p := Trim(ReplaceChar(path, '\\', '/'));
    if p == "" || p[0] == '/' then ""
    else
      var stack := Resolve(Split(p, '/'), []);
      if stack == [] || stack[0] == ".." then "" else Join(stack, '/')
  }

  function Width(parts: seq<string>): nat {
    if parts == [] then 0 else |parts[0]| + 1 + Width(parts[1..])
  }

  lemma {:induction false} WidthConcat(a: seq<string>, b: seq<string>)
    ensures Width(a + b) == Width(a) + Width(b)
  {
    if a == [] {
      assert a + b == b;
    } else {
      assert (a + b)[1..] == a[1..] + b;
      WidthConcat(a[1..], b);
    }
  }

  lemma {:induction false} JoinWidth(parts: seq<string>, sep: char)
    requires parts != []
    ensures |Join(parts, sep)| + 1 == Width(parts)
  {
    if |parts| > 1 {
      JoinWidth(parts[1..], sep);
    } else {
      assert parts[1..] == [];
    }
  }

  /** Resolving never widens, and keeps the width only by keeping every part. */
  lemma {:induction false} ResolveShrinks(parts: seq<string>, stack: seq<string>)
    ensures Width(Resolve(parts, stack)) <= Width(stack) + Width(parts)
    ensures Width(Resolve(parts, stack)) == Width(stack) + Width(parts)
      ==> Resolve(parts, stack) == stack + parts
    decreases |parts|
  {
    if parts != [] {
      if parts[0] == "" || parts[0] == "." {
        ResolveShrinks(parts[1..], stack);
      } else if parts[0] == ".." && stack != [] && stack[|stack| - 1] != ".." {
        var n := |stack| - 1;
        ResolveShrinks(parts[1..], stack[..n]);
        assert stack == stack[..n] + stack[n..];
        WidthConcat(stack[..n], stack[n..]);
      } else {
        ResolveShrinks(parts[1..], stack + [parts[0]]);
        WidthConcat(stack, [parts[0]]);
        assert stack + [parts[0]] + parts[1..] == stack + parts;
      }
    }
  }

  lemma {:induction false} ResolveElements(parts: seq<string>, stack: seq<string>)
    ensures forall p :: p in Resolve(parts, stack) ==> p in stack || p in parts
    decreases |parts|
  {
    if parts != [] {
      ResolveElements(parts[1..], stack);
      ResolveElements(parts[1..], stack + [parts[0]]);
      if stack != [] { ResolveElements(parts[1..], stack[..|stack| - 1]); }
    }
  }

  lemma {:induction false} JoinCharacters(parts: seq<string>, sep: char, c: char)
    requires c in Join(parts, sep)
    ensures c == sep || exists p :: p in parts && c in p
  {
    if |parts| > 1 {
      if c in parts[0] {
      } else if c != sep {
        assert c in Join(parts[1..], sep);
        JoinCharacters(parts[1..], sep, c);
      }
    } else if |parts| == 1 {
      assert parts[0] in parts;
    }
  }

  /** A cleaned path holds no character its source lacks, apart from the slash. */
  lemma CleanPathCharacters(path: string, c: char)
    requires c in CleanPath(path) && c != '/'
    ensures c in path && c != '\\'
  {
    var slashed := ReplaceChar(path, '\\', '/');
    var p := Trim(slashed);
    var parts := Split(p, '/');
    var stack := Resolve(parts, []);
    ResolveElements(parts, []);
    SplitCharacters(p, '/');
    JoinCharacters(stack, '/', c);
    var part :| part in stack && c in part;
    assert part in parts;
    assert c in p && c in slashed;
    var i :| 0 <= i < |slashed| && slashed[i] == c;
    assert path[i] == c;
  }

  lemma CleanPathNoBackslash(path: string)
    ensures '\\' !in CleanPath(path)
  {
    if '\\' in CleanPath(path) { CleanPathCharacters(path, '\\'); }
  }

  lemma JoinResolvedShrinks(p: string)
    requires Resolve(Split(p, '/'), []) != []
    ensures |Join(Resolve(Split(p, '/'), []), '/')| <= |p|
    ensures |Join(Resolve(Split(p, '/'), []), '/')| == |p| ==> Join(Resolve(Split(p, '/'), []), '/') == p
  {
    var parts := Split(p, '/');
    var stack := Resolve(parts, []);
    ResolveShrinks(parts, []);
    assert [] + parts == parts;
    JoinSplit(p, '/');
    JoinWidth(parts, '/');
    JoinWidth(stack, '/');
  }

  /** Cleaning never lengthens a path, and keeps the length of a path without
      backslashes only by leaving it alone. */
  lemma CleanPathShrinks(path: string)
    ensures |CleanPath(path)| <= |path|
    ensures '\\' !in path && |CleanPath(path)| == |path| ==> CleanPath(path) == path
  {
    var slashed := ReplaceChar(path, '\\', '/');
    if '\\' !in path {
      assert slashed == path;
    }
    if CleanPath(path) != "" {
      JoinResolvedShrinks(Trim(slashed));
    }
  }

  lemma CleanPathIgnoresCarriageReturn(path: string)
    ensures CleanPath(path + ['\r']) == CleanPath(path)
  {
    var slashed := ReplaceChar(path, '\\', '/');
    assert ReplaceChar(path + ['\r'], '\\', '/') == slashed + ['\r'];
    TrimDropsTrailingSpace(slashed, '\r');
  }

  /** Where the parts lead from a place below the project's root; None if they ever leave the root. */
  function Walk(parts: seq<string>, place: seq<string>): Option<seq<string>> {
    if parts == [] then Some(place)
    else if parts[0] == "" || parts[0] == "." then Walk(parts[1..], place)
    else if parts[0] != ".." then Walk(parts[1..], place + [parts[0]])
    else if place == [] then None
    else Walk(parts[1..], place[..|place| - 1])
  }

  lemma {:induction false} StaysOut(parts: seq<string>, stack: seq<string>)
    requires stack != [] && stack[0] == ".."
    ensures Resolve(parts, stack) != [] && Resolve(parts, stack)[0] == ".."
    decreases |parts|
  {
    if parts != [] {
      if parts[0] == "" || parts[0] == "." {
        StaysOut(parts[1..], stack);
      } else if parts[0] == ".." && stack[|stack| - 1] != ".." {
        StaysOut(parts[1..], stack[..|stack| - 1]);
      } else {
        StaysOut(parts[1..], stack + [parts[0]]);
      }
    }
  }

  lemma {:induction false} ResolveWalks(parts: seq<string>, stack: seq<string>)
    requires ".." !in stack
    ensures match Walk(parts, stack)
      case Some(place) => Resolve(parts, stack) == place && ".." !in place
      case None => Resolve(parts, stack) != [] && Resolve(parts, stack)[0] == ".."
    decreases |parts|
  {
    if parts != [] {
      if parts[0] == "" || parts[0] == "." {
        ResolveWalks(parts[1..], stack);
      } else if parts[0] != ".." {
        ResolveWalks(parts[1..], stack + [parts[0]]);
      } else if stack == [] {
        StaysOut(parts[1..], [] + [".."]);
      } else {
        ResolveWalks(parts[1..], stack[..|stack| - 1]);
      }
    }
  }

  /** Cleaning keeps where a path leads: the cleaned path names, part by part, the place its walk
      ends at, and a path that is absolute, stays at the root or ever leaves it is refused. */
  lemma CleanPathWalks(path: string)
    ensures var p := Trim(ReplaceChar(path, '\\', '/'));
      CleanPath(path) ==
        if p == "" || p[0] == '/' then ""
        else match Walk(Split(p, '/'), [])
          case Some(place) => Join(place, '/')
          case None => ""
  {
    var p := Trim(ReplaceChar(path, '\\', '/'));
    if p != "" && p[0] != '/' {
      ResolveWalks(Split(p, '/'), []);
    }
  }
}
