/** What a status request shows of each project, from what memory and the index files had before it. */
module FileIndexStatus {
  import opened Text
  import opened Sorting
  import opened FuzzyMatch
  import opened FileIndex

  datatype StatusEntry = StatusEntry(projectID: string, name: string, root: string, status: Status, fileCount: nat,
    indexPath: string, running: bool, error: string)

  const BY_NAME: Fuzzy -> ((StatusEntry, StatusEntry) -> bool) :=
    (fuzzy: Fuzzy) => (a: StatusEntry, b: StatusEntry) => Less(fuzzy.Lower(a.name), fuzzy.Lower(b.name))

  /** In the order of the names, in lower case. */
  ghost predicate InNameOrder(fuzzy: Fuzzy, entries: seq<StatusEntry>) {
    forall i, j :: 0 <= i < j < |entries| ==> !Less(fuzzy.Lower(entries[j].name), fuzzy.Lower(entries[i].name))
  }

  lemma StatusSorted(fuzzy: Fuzzy, entries: seq<StatusEntry>)
    ensures InNameOrder(fuzzy, Sort(BY_NAME(fuzzy), entries))
  {
    LessIsStrictTotalOrder();
    SortSorted(BY_NAME(fuzzy), entries);
  }

  /** The first project shown under that id. */
  predicate FirstWithID(shown: seq<Project>, id: string, j: int) {
    && 0 <= j < |shown| && Normalize(shown[j]).id == id
    && forall i :: 0 <= i < j ==> Normalize(shown[i]).id != id
  }

  /** What the index file at a path says: indexed with so many lines, or missing. */
  predicate AsFile(files: Files, path: string, status: Status, count: nat, indexPath: string) {
    && indexPath == path
    && if path in files.counts then status == Indexed && count == files.counts[path]
      else status == Missing && count == 0
  }

  predicate AsHeld(held: Snapshot, status: Status, count: nat, indexPath: string) {
    status == held.status && count == held.fileCount && indexPath == held.indexPath
  }

  /** What was in memory is told as it was there; the rest as the file of the first project shown
      under the id says. */
  ghost predicate Tells(pathOf: string -> string, s: State, shown: seq<Project>, id: string, status: Status, count: nat,
      indexPath: string)
  {
    if id in s.snapshots then AsHeld(s.snapshots[id], status, count, indexPath)
    else forall j :: FirstWithID(shown, id, j) ==>
      AsFile(s.disk, pathOf(Normalize(shown[j]).name), status, count, indexPath)
  }

  /** After the first i projects of the list, memory has what was there, and what the first
      projects of new ids were told. */
  ghost predicate TellsSoFar(pathOf: string -> string, s: State, shown: seq<Project>, i: nat,
      snapshots: map<string, Snapshot>)
  {
    && (forall id :: id in s.snapshots ==> id in snapshots)
    && (forall k :: 0 <= k < i && k < |shown| ==> Normalize(shown[k]).id in snapshots)
    && (forall id {:trigger snapshots[id]} :: id in snapshots ==>
      Tells(pathOf, s, shown, id, snapshots[id].status, snapshots[id].fileCount, snapshots[id].indexPath))
  }

  lemma HeldAlike(s: State, held: Snapshot, snap: Snapshot, pathOf: string -> string, shown: seq<Project>, id: string)
    requires AsHeld(held, snap.status, snap.fileCount, snap.indexPath)
    requires Tells(pathOf, s, shown, id, held.status, held.fileCount, held.indexPath)
    ensures Tells(pathOf, s, shown, id, snap.status, snap.fileCount, snap.indexPath)
  {
  }

  lemma TellsOneMore(pathOf: string -> string, s: State, shown: seq<Project>, i: nat, snapshots: map<string, Snapshot>,
      snap: Snapshot)
    requires TellsSoFar(pathOf, s, shown, i, snapshots) && i < |shown|
    requires var p := Normalize(shown[i]);
      if p.id in snapshots then AsHeld(snapshots[p.id], snap.status, snap.fileCount, snap.indexPath)
      else AsFile(s.disk, pathOf(p.name), snap.status, snap.fileCount, snap.indexPath)
    ensures TellsSoFar(pathOf, s, shown, i + 1, snapshots[Normalize(shown[i]).id := snap])
    ensures Tells(pathOf, s, shown, Normalize(shown[i]).id, snap.status, snap.fileCount, snap.indexPath)
  {
    hide Normalize;
    hide AsFile;
    var id := Normalize(shown[i]).id;
    if id in snapshots {
      HeldAlike(s, snapshots[id], snap, pathOf, shown, id);
    } else {
      forall k | 0 <= k < i ensures Normalize(shown[k]).id != id {
        assert Normalize(shown[k]).id in snapshots;
      }
    }
  }

  lemma TellsAtFirst(pathOf: string -> string, s: State, shown: seq<Project>, snapshots: map<string, Snapshot>)
    requires ReleasedFrom(s.snapshots, snapshots)
    ensures TellsSoFar(pathOf, s, shown, 0, snapshots)
  {
  }

  /** A project that is scanned is shown as such, with what else was known of it. */
  ghost predicate TellsOf(pathOf: string -> string, s: State, shown: seq<Project>, p: Project, e: StatusEntry) {
    exists status :: Tells(pathOf, s, shown, p.id, status, e.fileCount, e.indexPath)
      && (if e.running then e.status == Scanning else e.status == status)
  }

  /** What a status says of a project: whether it is being scanned, its last error, what memory or
      file had of it, and, when these were in step, the number of files listed or counted in its
      index file. */
  ghost predicate Shows(fuzzy: Fuzzy, pathOf: string -> string, s: State, lastErrors: map<string, string>,
    shown: seq<Project>, p: Project, e: StatusEntry)
  {
    && e.projectID == p.id && e.name == p.name && e.root == p.root
    && (e.running <==> p.id in s.running)
    && TellsOf(pathOf, s, shown, p, e)
    && e.error == (if p.id in lastErrors then lastErrors[p.id] else "")
    && (e.status == Indexed && Coherent(fuzzy, pathOf, s, p) && ShownAlike(pathOf, shown, p) ==>
      CountsFiles(s.disk, pathOf(p.name), e.fileCount))
  }

  lemma EntryShows(fuzzy: Fuzzy, pathOf: string -> string, s: State, t: State, lastErrors: map<string, string>,
      shown: seq<Project>, i: nat, snap: Snapshot)
    requires i < |shown| && StaysCoherent(fuzzy, pathOf, s, t, shown)
    requires var p := Normalize(shown[i]);
      && (Known(t.snapshots, t.disk, p.id, pathOf(p.name)) ==> SnapshotAgrees(snap, t.disk, pathOf(p.name)))
      && Tells(pathOf, s, shown, p.id, snap.status, snap.fileCount, snap.indexPath)
    ensures var p := Normalize(shown[i]);
      Shows(fuzzy, pathOf, s, lastErrors, shown, p,
        StatusEntry(p.id, p.name, p.root, if p.id in s.running then Scanning else snap.status, snap.fileCount,
          snap.indexPath, p.id in s.running, if p.id in lastErrors then lastErrors[p.id] else ""))
  {
    hide Normalize;
    hide Tells;
    var p := Normalize(shown[i]);
    if Coherent(fuzzy, pathOf, s, p) && ShownAlike(pathOf, shown, p) {
      assert Coherent(fuzzy, pathOf, t, p);
    }
  }

  /** What the entry of the i-th project has to show. */
  ghost function ShownFor(fuzzy: Fuzzy, pathOf: string -> string, s: State, lastErrors: map<string, string>,
    shown: seq<Project>): (int, StatusEntry) -> bool
  {
    (i: int, e: StatusEntry) => 0 <= i < |shown| && Shows(fuzzy, pathOf, s, lastErrors, shown, Normalize(shown[i]), e)
  }

  predicate CountsFiles(files: Files, path: string, count: nat) {
    path in files.lists && path in files.counts && (count == |files.lists[path]| || count == files.counts[path])
  }
}
