/** The quota of the debug upload directory: the oldest uploads make room for a new one. */
module UploadQuota {
  import opened Text
  import opened Sorting

  const MAX_FILES := 128
  const MAX_TOTAL_BYTES := 64 * 1024 * 1024
  const MAX_LOG_BYTES := 512 * 1024

  datatype Entry = Entry(regular: bool, size: nat, modTime: int)

  datatype File = File(name: string, size: nat, modTime: int)

  /** Older first, by name among files of the same time. */
  const BY_AGE: (File, File) -> bool := (a: File, b: File) =>
    if a.modTime == b.modTime then Less(a.name, b.name) else a.modTime < b.modTime

  datatype Outcome =
    | Done | InvalidRequest | UnsafeEntry | RemoveFailed | CannotBeSatisfied
    | InvalidName | TooLarge | WriteFailed

  function Lower(c: char): char {
    if 'A' <= c <= 'Z' then c - 'A' + 'a' else c
  }

  /** isDebugUploadFileName. */
  predicate IsUpload(name: string) {
    && Contains(name, "-diagnostics-") && |name| >= 4
    && name[|name| - 4] == '.' && Lower(name[|name| - 3]) == 'l'
    && Lower(name[|name| - 2]) == 'o' && Lower(name[|name| - 1]) == 'g'
  }

  /** The names of uploads: those with "-diagnostics-" in them that end in ".log", in capitals or not. */
  lemma UploadNamesExactly(name: string)
    ensures IsUpload(name) <==>
      && (exists i :: 0 <= i <= |name| && "-diagnostics-" <= name[i..])
      && |name| >= 4 && name[|name| - 4..] in {".log", ".Log", ".lOg", ".loG", ".LOg", ".LoG", ".lOG", ".LOG"}
  {
    ContainsExactly(name, "-diagnostics-");
    if |name| >= 4 {
      var end := name[|name| - 4..];
      assert end == [end[0], end[1], end[2], end[3]];
      LowerExactly(end[1], 'l', 'L');
      LowerExactly(end[2], 'o', 'O');
      LowerExactly(end[3], 'g', 'G');
    }
  }

  lemma LowerExactly(c: char, low: char, high: char)
    requires 'a' <= low <= 'z' && high == low - 'a' + 'A'
    ensures Lower(c) == low <==> c == low || c == high
  {
  }

  /** The temporary file of a write is not counted, listed or deleted by the quota. */
  lemma TemporaryIsNoUpload(name: string)
    requires HasSuffix(name, ".tmp")
    ensures !IsUpload(name)
  {
    assert name[|name| - 3] == name[|name| - 4..][1] == 't';
  }

  function Total(files: seq<File>): nat {
    if files == [] then 0 else files[0].size + Total(files[1..])
  }

  /** Within the quota, with what is coming in. */
  predicate Fits(files: seq<File>, incomingBytes: int, incomingFiles: int) {
    |files| + incomingFiles <= MAX_FILES && Total(files) + incomingBytes <= MAX_TOTAL_BYTES
  }

  predicate Lists(upload: string -> bool, entries: map<string, Entry>, f: File) {
    && upload(f.name) && f.name in entries && entries[f.name].regular
    && f == File(f.name, entries[f.name].size, entries[f.name].modTime)
  }

  /** The files are the uploads of the directory, oldest first. */
  ghost predicate Listing(upload: string -> bool, entries: map<string, Entry>, files: seq<File>) {
    && StrictlySorted(BY_AGE, files)
    && (forall f {:trigger f in files} :: f in files ==> Lists(upload, entries, f))
    && (forall n {:trigger upload(n)} :: n in entries && upload(n) ==>
      File(n, entries[n].size, entries[n].modTime) in files)
  }

  function Names(files: seq<File>): set<string> {
    set f | f in files :: f.name
  }

  lemma ByAgeStrict()
    ensures forall x :: !BY_AGE(x, x)
    ensures forall x, y, z :: BY_AGE(x, y) && BY_AGE(y, z) ==> BY_AGE(x, z)
    ensures forall x: File, y: File :: x.name != y.name ==> BY_AGE(x, y) || BY_AGE(y, x)
  {
    LessIsStrictTotalOrder();
  }

  /** A directory lists in one way only. */
  lemma ListingUnique(upload: string -> bool, entries: map<string, Entry>, a: seq<File>, b: seq<File>)
    requires Listing(upload, entries, a) && Listing(upload, entries, b)
    ensures a == b
  {
    ByAgeStrict();
    StrictlySortedUnique(BY_AGE, a, b);
  }

  lemma {:induction false} TotalAppend(a: seq<File>, b: seq<File>)
    ensures Total(a + b) == Total(a) + Total(b)
  {
    if a == [] {
      assert a + b == b;
    } else {
      assert (a + b)[1..] == a[1..] + b;
      TotalAppend(a[1..], b);
    }
  }

  /** Dropping the oldest files leaves the listing of what is left. */
  lemma ListingRest(upload: string -> bool, entries: map<string, Entry>, files: seq<File>, k: nat)
    requires Listing(upload, entries, files) && k <= |files|
    ensures Listing(upload, entries - Names(files[..k]), files[k..])
  {
    ByAgeStrict();
    var rest := entries - Names(files[..k]);
    forall f | f in files[k..] ensures f.name !in Names(files[..k]) {
      forall g | g in files[..k] ensures g.name != f.name {
        var i :| 0 <= i < k && files[i] == g;
        var j :| k <= j < |files| && files[j] == f;
        assert BY_AGE(g, f);
        assert g in files && f in files;
      }
    }
    forall f | f in files[k..] ensures Lists(upload, rest, f) {
      assert f in files;
    }
    forall n | n in rest && upload(n) ensures File(n, rest[n].size, rest[n].modTime) in files[k..] {
      var f := File(n, entries[n].size, entries[n].modTime);
      assert f in files && f !in files[..k];
      assert files == files[..k] + files[k..];
    }
  }

  /** The first k files are the shortest oldest-first prefix to delete. */
  ghost predicate Shortest(files: seq<File>, k: nat, incomingBytes: int, incomingFiles: int) {
    && k <= |files| && Fits(files[k..], incomingBytes, incomingFiles)
    && forall j {:trigger files[j..]} :: 0 <= j < k ==> !Fits(files[j..], incomingBytes, incomingFiles)
  }

  /** One more file had to go, and could not be removed. */
  ghost predicate Stuck(files: seq<File>, k: nat, stuck: set<string>, incomingBytes: int, incomingFiles: int) {
    && k < |files| && files[k].name in stuck
    && forall j {:trigger files[j..]} :: 0 <= j <= k ==> !Fits(files[j..], incomingBytes, incomingFiles)
  }

  /** The name checks of writeDebugUpload. */
  predicate ValidName(upload: string -> bool, name: string) {
    name != "" && '/' !in name && '\\' !in name && upload(name)
  }

  ghost predicate InQuota(upload: string -> bool, entries: map<string, Entry>) {
    && (forall n {:trigger upload(n)} :: n in entries && upload(n) ==> entries[n].regular)
    && forall files {:trigger Listing(upload, entries, files)} :: Listing(upload, entries, files) ==> Fits(files, 0, 0)
  }

  /** Of two uploads, the one that was written earlier goes first, and by name if at the same time. */
  predicate GoesFirst(entries: map<string, Entry>, a: string, b: string)
    requires a in entries && b in entries
  {
    entries[a].modTime < entries[b].modTime || (entries[a].modTime == entries[b].modTime && Less(a, b))
  }

  /** No upload that stays was due to go before one that went, and nothing but uploads went. */
  ghost predicate OldestWent(upload: string -> bool, before: map<string, Entry>, after: map<string, Entry>) {
    && (forall a :: a in after ==> a in before && after[a] == before[a])
    && (forall a :: a in before && a !in after ==> upload(a))
    && (forall a, b :: a in before && a !in after && b in after && upload(b) ==> GoesFirst(before, a, b))
  }

  lemma PrefixWent(upload: string -> bool, entries: map<string, Entry>, files: seq<File>, k: nat)
    requires Listing(upload, entries, files) && k <= |files|
    ensures OldestWent(upload, entries, entries - Names(files[..k]))
  {
    var after := entries - Names(files[..k]);
    NamesOfFirst(files, k);
    forall a | a in entries && a !in after ensures upload(a) {
      var i := PositionOf(upload, entries, files, k, a);
    }
    forall a, b | a in entries && a !in after && b in after && upload(b) ensures GoesFirst(entries, a, b) {
      var i := PositionOf(upload, entries, files, k, a);
      var g := File(b, entries[b].size, entries[b].modTime);
      assert g in files;
      var j :| 0 <= j < |files| && files[j] == g;
      assert BY_AGE(files[i], files[j]);
    }
  }

  lemma NamesOfFirst(files: seq<File>, k: nat)
    requires k <= |files|
    ensures forall i :: 0 <= i < k ==> files[i].name in Names(files[..k])
  {
    forall i | 0 <= i < k ensures files[i].name in Names(files[..k]) {
      assert files[i] in files[..k];
    }
  }

  /** The place of an upload that is among the first k. */
  lemma PositionOf(upload: string -> bool, entries: map<string, Entry>, files: seq<File>, k: nat, a: string)
    returns (i: nat)
    requires Listing(upload, entries, files) && k <= |files| && a in Names(files[..k])
    ensures i < k && files[i].name == a && Lists(upload, entries, files[i])
  {
    var f :| f in files[..k] && f.name == a;
    i :| 0 <= i < k && files[i] == f;
    assert files[i] in files;
  }

  class Directory {
    var entries: map<string, Entry>

    /** os.ReadDir and the checks of each entry. */
    method ReadUploads(upload: string -> bool) returns (safe: bool, files: seq<File>)
      ensures safe <==> forall n :: n in entries && upload(n) ==> entries[n].regular
      ensures safe ==> Listing(upload, entries, files)
    {
      files := [];
      var left := entries.Keys;
      while left != {}
        invariant left <= entries.Keys && NoRepeats(files)
        invariant forall f {:trigger f in files} :: f in files ==> Lists(upload, entries, f) && f.name !in left
        invariant forall n {:trigger upload(n)} :: n in entries && n !in left && upload(n) ==>
          File(n, entries[n].size, entries[n].modTime) in files
        decreases left
      {
        var n := AnyOf(left);
        forall i | 0 <= i < |files| ensures files[i].name != n {
          assert files[i] in files;
        }
        left := left - {n};
        if upload(n) {
          if !entries[n].regular {
            return false, [];
          }
          files := files + [File(n, entries[n].size, entries[n].modTime)];
        }
      }
      SortListing(upload, entries, files);
      safe, files := true, Sort(BY_AGE, files);
    }

    /** enforceDebugUploadQuota. Removing one of the stuck files fails. */
    method Enforce(upload: string -> bool, stuck: set<string>, incomingBytes: int, incomingFiles: int)
      returns (r: Outcome, ghost files: seq<File>, ghost dropped: nat)
      modifies this
      ensures r.InvalidRequest? <==> !(0 <= incomingBytes <= MAX_TOTAL_BYTES && 0 <= incomingFiles <= MAX_FILES)
      ensures r.Done? || r.InvalidRequest? || r.UnsafeEntry? || r.RemoveFailed?
      ensures r.UnsafeEntry? ==> exists n :: n in old(entries) && upload(n) && !old(entries)[n].regular
      ensures r.InvalidRequest? || r.UnsafeEntry? ==> entries == old(entries)
      ensures r.Done? || r.RemoveFailed? ==> Listing(upload, old(entries), files) && dropped <= |files|
      ensures r.Done? || r.RemoveFailed? ==> entries == old(entries) - Names(files[..dropped])
      ensures r.Done? ==> Shortest(files, dropped, incomingBytes, incomingFiles)
      ensures r.Done? ==>
        |files| - dropped + incomingFiles <= 128 && Total(files[dropped..]) + incomingBytes <= 67_108_864
      ensures r.Done? && dropped > 0 ==>
        |files| - dropped + 1 + incomingFiles > 128 || Total(files[dropped - 1..]) + incomingBytes > 67_108_864
      ensures r.RemoveFailed? ==> Stuck(files, dropped, stuck, incomingBytes, incomingFiles)
      ensures OldestWent(upload, old(entries), entries)
    {
      files, dropped := [], 0;
      if incomingBytes < 0 || incomingBytes > MAX_TOTAL_BYTES || incomingFiles < 0 || incomingFiles > MAX_FILES {
        return InvalidRequest, [], 0;
      }
      var safe, all := ReadUploads(upload);
      if !safe {
        return UnsafeEntry, [], 0;
      }
      r, dropped := DropOldest(all, stuck, incomingBytes, incomingFiles);
      files := all;
      PrefixWent(upload, old(entries), files, dropped);
    }

    /** writeDebugUpload. The temporary file is no upload, so it is not part of the directory;
        written tells whether writing and renaming it succeeds, secured whether the destination
        can then be secured. */
    method WriteUpload(upload: string -> bool, fileName: string, size: nat, now: int, stuck: set<string>,
        written: bool, secured: bool)
      returns (r: Outcome, ghost files: seq<File>, ghost dropped: nat)
      modifies this
      ensures r.InvalidName? <==>
        fileName == "" || '/' in fileName || '\\' in fileName || !upload(fileName)
      ensures r.TooLarge? <==> !r.InvalidName? && size > 524_288
      ensures !r.InvalidRequest? && !r.CannotBeSatisfied?
      ensures r.Done? ==>
        written && secured && Listing(upload, old(entries), files) && Shortest(files, dropped, size, 1)
      ensures r.Done? ==> entries == (old(entries) - Names(files[..dropped]))[fileName := Entry(true, size, now)]
      ensures r.Done? ==> InQuota(upload, entries)
      ensures r.Done? ==> OldestWent(upload, old(entries), old(entries) - Names(files[..dropped]))
      ensures r.RemoveFailed? ==> Listing(upload, old(entries), files) && Stuck(files, dropped, stuck, size, 1)
      ensures !r.Done? ==> forall n :: n in entries ==>
        (n in old(entries) && entries[n] == old(entries)[n]) || (n == fileName && n in stuck)
    {
      files, dropped := [], 0;
      if !ValidName(upload, fileName) {
        return InvalidName, files, dropped;
      }
      if size > MAX_LOG_BYTES {
        return TooLarge, files, dropped;
      }
      r, files, dropped := Enforce(upload, stuck, size, 1);
      if !r.Done? {
        return;
      }
      if !written {
        r := WriteFailed;
        return;
      }
      ghost var kept := entries;
      ListingRest(upload, old(entries), files, dropped);
      PrefixWent(upload, old(entries), files, dropped);
      entries := entries[fileName := Entry(true, size, now)];
      if !secured {
        if fileName !in stuck {
          entries := entries - {fileName};
        }
        r := WriteFailed;
        return;
      }
      ghost var all := entries;
      SecondPassFits(upload, kept, files[dropped..], fileName, size, now);
      var again, later, none := Enforce(upload, stuck, 0, 0);
      assert later[0..] == later;
      assert none == 0 && Names(later[..0]) == {} && all - {} == all;
      assert again.Done?;
      r := again;
    }

    /** The loop that deletes the oldest file while the quota is exceeded. */
    method DropOldest(all: seq<File>, stuck: set<string>, incomingBytes: int, incomingFiles: int)
      returns (r: Outcome, dropped: nat)
      requires 0 <= incomingBytes <= MAX_TOTAL_BYTES && 0 <= incomingFiles <= MAX_FILES
      modifies this
      ensures r.Done? || r.RemoveFailed?
      ensures dropped <= |all| && entries == old(entries) - Names(all[..dropped])
      ensures r.Done? ==> Shortest(all, dropped, incomingBytes, incomingFiles)
      ensures r.RemoveFailed? ==> Stuck(all, dropped, stuck, incomingBytes, incomingFiles)
    {
      var files := all;
      var totalBytes := SumSizes(files);
      dropped := 0;
      while |files| + incomingFiles > MAX_FILES || totalBytes + incomingBytes > MAX_TOTAL_BYTES
        invariant dropped <= |all| && files == all[dropped..] && totalBytes == Total(files)
        invariant entries == old(entries) - Names(all[..dropped])
        invariant forall j {:trigger all[j..]} :: 0 <= j < dropped ==> !Fits(all[j..], incomingBytes, incomingFiles)
        decreases |files|
      {
        if |files| == 0 {
          return CannotBeSatisfied, dropped;
        }
        var oldest := files[0];
        if oldest.name in stuck {
          return RemoveFailed, dropped;
        }
        NamesOneMore(all, dropped);
        entries := entries - {oldest.name};
        files := files[1..];
        totalBytes := totalBytes - oldest.size;
        dropped := dropped + 1;
      }
      r := Done;
    }
  }

  method SumSizes(files: seq<File>) returns (total: nat)
    ensures total == Total(files)
  {
    total := 0;
    for k := 0 to |files|
      invariant total == Total(files[..k])
    {
      assert files[..k + 1] == files[..k] + [files[k]];
      TotalAppend(files[..k], [files[k]]);
      total := total + files[k].size;
    }
    assert files[..|files|] == files;
  }

  lemma NamesOneMore(files: seq<File>, k: nat)
    requires k < |files|
    ensures Names(files[..k + 1]) == Names(files[..k]) + {files[k].name}
  {
    var more, fewer := files[..k + 1], files[..k];
    assert more == fewer + [files[k]];
    forall n ensures n in Names(more) <==> n in Names(fewer) + {files[k].name} {
      assert files[k] in more;
    }
  }

  lemma SortListing(upload: string -> bool, entries: map<string, Entry>, files: seq<File>)
    requires NoRepeats(files)
    requires forall f {:trigger f in files} :: f in files ==> Lists(upload, entries, f)
    requires forall n {:trigger upload(n)} :: n in entries && upload(n) ==>
      File(n, entries[n].size, entries[n].modTime) in files
    ensures Listing(upload, entries, Sort(BY_AGE, files))
  {
    ByAgeStrict();
    assert TotalOn(BY_AGE, Elements(files));
    SortStrictlySorted(BY_AGE, files);
    SortElements(BY_AGE, files);
  }

  /** The incoming file fits a quota that room was made in, whether its name is new or not. */
  lemma WriteFits(upload: string -> bool, entries: map<string, Entry>, files: seq<File>, name: string,
      size: nat, modTime: int, later: seq<File>)
    requires Listing(upload, entries, files) && Fits(files, size, 1) && upload(name)
    requires Listing(upload, entries[name := Entry(true, size, modTime)], later)
    ensures Fits(later, 0, 0)
  {
    var f := File(name, size, modTime);
    var others := entries - {name};
    var i := IndexOf(later, f);
    WithoutOne(later, i);
    ListingWithout(upload, entries[name := Entry(true, size, modTime)], later, i);
    assert entries[name := Entry(true, size, modTime)] - {name} == others;
    if name in entries {
      var g := File(name, entries[name].size, entries[name].modTime);
      assert entries[name].regular by { WrittenRegular(upload, entries, files, name); }
      var j := IndexOf(files, g);
      WithoutOne(files, j);
      ListingWithout(upload, entries, files, j);
      ListingUnique(upload, others, files[..j] + files[j + 1..], later[..i] + later[i + 1..]);
    } else {
      assert others == entries;
      ListingUnique(upload, entries, files, later[..i] + later[i + 1..]);
    }
  }

  /** After the write everything is regular and within the quota: the second pass deletes nothing. */
  lemma SecondPassFits(upload: string -> bool, entries: map<string, Entry>, files: seq<File>, name: string,
      size: nat, modTime: int)
    requires Listing(upload, entries, files) && Fits(files, size, 1) && upload(name)
    ensures InQuota(upload, entries[name := Entry(true, size, modTime)])
  {
    var after := entries[name := Entry(true, size, modTime)];
    forall n | n in after && upload(n) ensures after[n].regular {
      if n != name {
        WrittenRegular(upload, entries, files, n);
      }
    }
    forall later | Listing(upload, after, later) ensures Fits(later, 0, 0) {
      WriteFits(upload, entries, files, name, size, modTime, later);
    }
  }

  lemma WrittenRegular(upload: string -> bool, entries: map<string, Entry>, files: seq<File>, name: string)
    requires Listing(upload, entries, files) && upload(name) && name in entries
    ensures entries[name].regular
  {
    var f := File(name, entries[name].size, entries[name].modTime);
    assert f in files && Lists(upload, entries, f);
  }

  lemma IndexOf(files: seq<File>, f: File) returns (i: nat)
    requires f in files
    ensures i < |files| && files[i] == f
  {
    i :| 0 <= i < |files| && files[i] == f;
  }

  lemma WithoutOne(files: seq<File>, i: nat)
    requires i < |files|
    ensures Total(files) == Total(files[..i] + files[i + 1..]) + files[i].size
  {
    CutAt(files, i);
    TotalMiddle(files[..i], files[i], files[i + 1..]);
  }

  lemma CutAt<T>(s: seq<T>, i: nat)
    requires i < |s|
    ensures s == s[..i] + ([s[i]] + s[i + 1..])
  {
  }

  lemma TotalMiddle(a: seq<File>, f: File, b: seq<File>)
    ensures Total(a + ([f] + b)) == Total(a + b) + f.size
  {
    var m := [f] + b;
    assert m[0] == f && m[1..] == b;
    TotalAppend(a, m);
    TotalAppend(a, b);
  }

  lemma WithoutLists(upload: string -> bool, entries: map<string, Entry>, files: seq<File>, i: nat, f: File)
    requires Listing(upload, entries, files) && i < |files| && f in files[..i] + files[i + 1..]
    ensures Lists(upload, entries - {files[i].name}, f)
  {
    var fewer := files[..i] + files[i + 1..];
    ByAgeStrict();
    var j :| 0 <= j < |fewer| && fewer[j] == f;
    var k := if j < i then j else j + 1;
    assert files[k] == f && files[k] in files && files[i] in files;
    assert if k < i then BY_AGE(f, files[i]) else BY_AGE(files[i], f);
  }

  lemma WithoutCovers(upload: string -> bool, entries: map<string, Entry>, files: seq<File>, i: nat, n: string)
    requires Listing(upload, entries, files) && i < |files| && n in entries && n != files[i].name && upload(n)
    ensures File(n, entries[n].size, entries[n].modTime) in files[..i] + files[i + 1..]
  {
    var f, fewer := File(n, entries[n].size, entries[n].modTime), files[..i] + files[i + 1..];
    assert f in files;
    var j := IndexOf(files, f);
    assert fewer[if j < i then j else j - 1] == f;
  }

  /** Without one file, a directory lists as before without that file. */
  lemma ListingWithout(upload: string -> bool, entries: map<string, Entry>, files: seq<File>, i: nat)
    requires Listing(upload, entries, files) && i < |files|
    ensures Listing(upload, entries - {files[i].name}, files[..i] + files[i + 1..])
  {
    var rest, fewer := entries - {files[i].name}, files[..i] + files[i + 1..];
    forall f | f in fewer ensures Lists(upload, rest, f) {
      WithoutLists(upload, entries, files, i, f);
    }
    forall n | n in rest && upload(n) ensures File(n, rest[n].size, rest[n].modTime) in fewer {
      WithoutCovers(upload, entries, files, i, n);
    }
    hide Lists;
  }
}
