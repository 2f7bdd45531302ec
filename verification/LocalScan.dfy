/** core/sync/engine.go:387-422: what scanLocal sees of the disk, and what a pass makes of what it does not see. */
module LocalScan {
  import opened SyncTypes
  import opened PathNames
  import opened PlanSpec
  import opened PassMachine
  import opened PlanSound
  import opened Schedule
  import opened MirrorLaw

  type RelPath = seq<Name>

  /** An entry of the disk. readable is whether a file's Info, or a folder's listing, can be had. */
  datatype Entry =
    | File(name: Name, file: LocalFile, readable: bool)
    | Dir(name: Name, entries: seq<Entry>, readable: bool)

  /** Names are proper and unique within a folder. */
  predicate WellFormed(e: Entry) {
    e.Dir? ==>
      && (forall i :: 0 <= i < |e.entries| ==> IsName(e.entries[i].name) && WellFormed(e.entries[i]))
      && (forall i, j :: 0 <= i < j < |e.entries| ==> e.entries[i].name != e.entries[j].name)
  }

  function Child(entries: seq<Entry>, n: Name): Option<Entry> {
    if entries == [] then None else if entries[0].name == n then Some(entries[0]) else Child(entries[1..], n)
  }

  lemma {:induction false} ChildIs(entries: seq<Entry>, n: Name)
    requires forall i, j :: 0 <= i < j < |entries| ==> entries[i].name != entries[j].name
    ensures forall i :: 0 <= i < |entries| && entries[i].name == n ==> Child(entries, n) == Some(entries[i])
    ensures Child(entries, n).Some? ==> exists i :: 0 <= i < |entries| && entries[i] == Child(entries, n).value && entries[i].name == n
  {
    if entries != [] {
      ChildIs(entries[1..], n);
      if i :| 0 <= i < |entries| - 1 && entries[1..][i].name == n { assert entries[i + 1].name == n; }
      forall i | 0 <= i < |entries| && entries[i].name == n ensures Child(entries, n) == Some(entries[i]) {
        if i > 0 { assert entries[1..][i - 1] == entries[i]; }
      }
    }
  }

  // ---- what is on disk, and what is hidden ----

  /** The file at rel below e. */
  function FileAt(e: Entry, rel: RelPath): Option<LocalFile>
    decreases |rel|
  {
    match e
    case File(_, f, _) => if rel == [] then Some(f) else None
    case Dir(_, entries, _) =>
      if rel == [] then None
      else match Child(entries, rel[0]) case None => None case Some(c) => FileAt(c, rel[1..])
  }

  predicate StartsWith(s: string, prefix: string) { |prefix| <= |s| && s[..|prefix|] == prefix }

  predicate EndsWith(s: string, suffix: string) { |suffix| <= |s| && s[|s| - |suffix|..] == suffix }

  /** The entry itself is skipped: it cannot be read, it is one of SyncDrive's own folders, or one of
      its unfinished downloads. */
  predicate SkippedHere(e: Entry) {
    || !e.readable
    || (e.Dir? && StartsWith(e.name, ".syncdrive"))
    || (e.File? && EndsWith(e.name, ".syncdrive-part"))
  }

  /** Of the entries that can be read, exactly these are SyncDrive's own. */
  lemma OwnNames(e: Entry)
    requires e.readable
    ensures e.Dir? ==> (SkippedHere(e) <==> exists rest :: e.name == ".syncdrive" + rest)
    ensures e.File? ==> (SkippedHere(e) <==> exists stem :: e.name == stem + ".syncdrive-part")
  {
    var d, f := |".syncdrive"|, |".syncdrive-part"|;
    if StartsWith(e.name, ".syncdrive") { assert e.name == ".syncdrive" + e.name[d..]; }
    if rest :| e.name == ".syncdrive" + rest { assert e.name[..d] == ".syncdrive"; }
    if EndsWith(e.name, ".syncdrive-part") { assert e.name == e.name[..|e.name| - f] + ".syncdrive-part"; }
    if stem :| e.name == stem + ".syncdrive-part" { assert e.name[|e.name| - f..] == ".syncdrive-part"; }
  }

  /** Something on the way to rel, or the file there, is skipped. */
  predicate Skipped(e: Entry, rel: RelPath)
    decreases |rel|
  {
    || SkippedHere(e)
    || (e.Dir? && rel != [] && Child(e.entries, rel[0]).Some? && Skipped(Child(e.entries, rel[0]).value, rel[1..]))
  }

  predicate Seen(e: Entry, rel: RelPath) { FileAt(e, rel).Some? && !Skipped(e, rel) }

  lemma {:induction false} SeenNames(e: Entry, rel: RelPath)
    requires WellFormed(e) && FileAt(e, rel).Some?
    ensures AreNames(rel)
    decreases |rel|
  {
    if e.Dir? {
      ChildIs(e.entries, rel[0]);
      SeenNames(Child(e.entries, rel[0]).value, rel[1..]);
      forall i | 0 <= i < |rel| ensures IsName(rel[i]) {
        if i > 0 { assert rel[i] == rel[1..][i - 1]; }
      }
    }
  }

  // ---- the walk ----

  type Found = map<RelPath, LocalFile>

  /** e, at prefix, has a file the walk reports at rel. */
  predicate Under(e: Entry, prefix: RelPath, rel: RelPath) {
    |prefix| <= |rel| && rel[..|prefix|] == prefix && Seen(e, rel[|prefix|..])
  }

  /** One of the first n entries of a folder at prefix has. */
  predicate UnderSome(entries: seq<Entry>, n: nat, prefix: RelPath, rel: RelPath)
    requires n <= |entries|
  {
    exists i :: 0 <= i < n && Under(entries[i], prefix + [entries[i].name], rel)
  }

  lemma UnderIsUnderSome(e: Entry, prefix: RelPath, rel: RelPath)
    requires WellFormed(e) && e.Dir? && !SkippedHere(e)
    ensures Under(e, prefix, rel) <==> UnderSome(e.entries, |e.entries|, prefix, rel)
    ensures forall i :: 0 <= i < |e.entries| && Under(e.entries[i], prefix + [e.entries[i].name], rel) ==>
              FileAt(e.entries[i], rel[|prefix| + 1..]) == FileAt(e, rel[|prefix|..])
  {
    var rest := rel[if |prefix| <= |rel| then |prefix| else |rel|..];
    if rest != [] {
      ChildIs(e.entries, rest[0]);
      assert rest[1..] == rel[|prefix| + 1..];
      if Under(e, prefix, rel) {
        var i :| 0 <= i < |e.entries| && e.entries[i] == Child(e.entries, rest[0]).value;
        assert rel[..|prefix| + 1] == prefix + [e.entries[i].name];
        assert Under(e.entries[i], prefix + [e.entries[i].name], rel);
      }
    }
    forall i | 0 <= i < |e.entries| && Under(e.entries[i], prefix + [e.entries[i].name], rel)
      ensures Under(e, prefix, rel) && FileAt(e.entries[i], rel[|prefix| + 1..]) == FileAt(e, rel[|prefix|..])
    {
      assert rel[|prefix|] == rel[..|prefix| + 1][|prefix|] == e.entries[i].name;
      assert rel[..|prefix|] == rel[..|prefix| + 1][..|prefix|] == prefix;
    }
  }

  /** From out0 to out, at rel: what is to be seen below e was added, and nothing else. */
  ghost predicate GainedAt(e: Entry, prefix: RelPath, out0: Found, out: Found, rel: RelPath) {
    if Under(e, prefix, rel) then rel in out && Some(out[rel]) == FileAt(e, rel[|prefix|..])
    else SameAt(out0, out, rel)
  }

  ghost predicate SameAt(out0: Found, out: Found, rel: RelPath) {
    (rel in out <==> rel in out0) && (rel in out ==> out[rel] == out0[rel])
  }

  ghost predicate Gained(e: Entry, prefix: RelPath, out0: Found, out: Found) {
    forall rel :: GainedAt(e, prefix, out0, out, rel)
  }

  /** The same with the first n entries of a folder. */
  ghost predicate GainedSomeAt(e: Entry, n: nat, prefix: RelPath, out0: Found, out: Found, rel: RelPath)
    requires e.Dir? && n <= |e.entries|
  {
    if UnderSome(e.entries, n, prefix, rel)
    then |prefix| <= |rel| && rel in out && Some(out[rel]) == FileAt(e, rel[|prefix|..])
    else SameAt(out0, out, rel)
  }

  ghost predicate GainedSome(e: Entry, n: nat, prefix: RelPath, out0: Found, out: Found)
    requires e.Dir? && n <= |e.entries|
  {
    forall rel :: GainedSomeAt(e, n, prefix, out0, out, rel)
  }

  lemma OneMoreEntry(e: Entry, n: nat, prefix: RelPath, out0: Found, past: Found, out: Found)
    requires WellFormed(e) && e.Dir? && !SkippedHere(e) && n < |e.entries|
    requires GainedSome(e, n, prefix, out0, past) && Gained(e.entries[n], prefix + [e.entries[n].name], past, out)
    ensures GainedSome(e, n + 1, prefix, out0, out)
  {
    var m := n + 1;
    forall rel ensures GainedSomeAt(e, m, prefix, out0, out, rel) {
      assert GainedSomeAt(e, n, prefix, out0, past, rel);
      assert GainedAt(e.entries[n], prefix + [e.entries[n].name], past, out, rel);
      UnderIsUnderSome(e, prefix, rel);
      assert UnderSome(e.entries, m, prefix, rel) <==>
             UnderSome(e.entries, n, prefix, rel) || Under(e.entries[n], prefix + [e.entries[n].name], rel);
    }
  }

  lemma AllEntries(e: Entry, prefix: RelPath, out0: Found, out: Found)
    requires WellFormed(e) && e.Dir? && !SkippedHere(e) && GainedSome(e, |e.entries|, prefix, out0, out)
    ensures Gained(e, prefix, out0, out)
  {
    forall rel ensures GainedAt(e, prefix, out0, out, rel) {
      assert GainedSomeAt(e, |e.entries|, prefix, out0, out, rel);
      UnderIsUnderSome(e, prefix, rel);
    }
  }

  lemma OneFile(e: Entry, prefix: RelPath, out0: Found, out: Found)
    requires e.File? && out == if SkippedHere(e) then out0 else out0[prefix := e.file]
    ensures Gained(e, prefix, out0, out)
  {
    forall rel ensures GainedAt(e, prefix, out0, out, rel) {
      if rel == prefix {
        assert rel[|prefix|..] == [] && rel[..|prefix|] == prefix;
      } else if |prefix| <= |rel| && rel[..|prefix|] == prefix {
        assert rel[|prefix|..] != [];
      }
    }
  }

  /** WalkDir: out gains exactly the files to be seen below e. */
  method Walk(e: Entry, prefix: RelPath, out0: Found) returns (out: Found)
    requires WellFormed(e)
    ensures Gained(e, prefix, out0, out)
    decreases e
  {
    match e {
      case File(name, file, readable) =>
        out := if !readable || EndsWith(name, ".syncdrive-part") then out0 else out0[prefix := file];
        OneFile(e, prefix, out0, out);
      case Dir(name, entries, readable) =>
        if StartsWith(name, ".syncdrive") || !readable { return out0; }
        out := out0;
        var i := 0;
        while i < |entries|
          invariant 0 <= i <= |entries| && GainedSome(e, i, prefix, out0, out)
        {
          ghost var past := out;
          out := Walk(entries[i], prefix + [entries[i].name], out);
          OneMoreEntry(e, i, prefix, out0, past, out);
          i := i + 1;
        }
        AllEntries(e, prefix, out0, out);
    }
  }

  /** The local tree is what the walk sees, keyed by joined paths. */
  ghost predicate IsScan(root: Entry, local: LocalTree) {
    && (forall p :: p in local ==> exists rel :: Seen(root, rel) && p == Join(rel))
    && (forall rel :: Seen(root, rel) ==> Join(rel) in local && local[Join(rel)] == FileAt(root, rel).value)
  }

  method ScanLocal(root: Entry) returns (local: LocalTree)
    requires WellFormed(root)
    ensures IsScan(root, local)
  {
    var found := Walk(root, [], map[]);
    forall rel ensures rel in found <==> Seen(root, rel) {
      assert rel[0..] == rel && GainedAt(root, [], map[], found, rel);
    }
    forall rel | rel in found ensures AreNames(rel) && found[rel] == FileAt(root, rel).value {
      assert rel[0..] == rel && GainedAt(root, [], map[], found, rel);
      SeenNames(root, rel);
    }
    forall r, q | r in found && q in found && Join(r) == Join(q) ensures r == q { JoinInjective(r, q); }
    local := map rel | rel in found :: Join(rel) := found[rel];
  }

  // ---- what becomes of a tracked file that is not seen ----

  /** A path on disk that the scan does not see is, for the pass, a deleted one: after a pass, an owned
      path that is still on disk is TRASHED if and only if the scan skipped it. */
  lemma TrashedExactlyWhenSkipped(root: Entry, w0: World, s: Snapshot, owner: map<Path, RelId>, route: map<Path, RelId>,
                                  steps: seq<Step>, rel: RelPath)
    requires WellFormed(root) && IsScan(root, w0.local) && FileAt(root, rel).Some?
    requires Planning(w0, s, owner, route) && Runnable(w0, steps)
    requires Join(rel) in owner && PathDone(Run(w0, steps), Join(rel))
    ensures var p := Join(rel); var k := Key(owner[p], p);
      k in Run(w0, steps).rows && (Run(w0, steps).rows[k].status == Trashed <==> Skipped(root, rel))
  {
    PlanIsSound(w0, s, owner, route);
    PassMirrors(w0, steps);
    SeenInLocal(root, w0.local, rel);
    if Join(rel) in w0.local {
      StaysLive(w0, s, owner, route, Run(w0, steps), Join(rel));
    } else {
      DeletionsReachTheTank(w0, s, owner, route, Run(w0, steps), Join(rel));
    }
  }

  lemma SeenInLocal(root: Entry, local: LocalTree, rel: RelPath)
    requires WellFormed(root) && IsScan(root, local) && FileAt(root, rel).Some?
    ensures Join(rel) in local <==> !Skipped(root, rel)
  {
    if Join(rel) in local {
      var q :| Seen(root, q) && Join(rel) == Join(q);
      SeenNames(root, rel);
      SeenNames(root, q);
      JoinInjective(rel, q);
    }
  }

  lemma PlannedHasFile(s: Snapshot, owner: map<Path, RelId>, route: map<Path, RelId>, t: Task)
    requires Planned(s, owner, route, t) && t.key.path in s.local
    ensures t.action != Trash
  {
  }

  /** An owned path that is there keeps its live row. */
  lemma StaysLive(w0: World, s: Snapshot, owner: map<Path, RelId>, route: map<Path, RelId>, w: World, p: Path)
    requires Planning(w0, s, owner, route) && Mirrors(w0, w) && p in owner && p in w0.local
    ensures Live(w.rows, Key(owner[p], p))
  {
    var k := Key(owner[p], p);
    if i :| Wrote(w, i, k) {
      PlannedHasFile(s, owner, route, w.tasks[i]);
    } else {
      assert Unwritten(w, k);
      assert SameRow(w0.rows, w.rows, k);
    }
  }

  /** A folder that cannot be listed for a moment: the file in it is still there and is skipped. */
  lemma UnreadableFolderIsSkipped()
    ensures var f := LocalFile([1], 0);
      var root := Dir("mirror", [Dir("docs", [File("a.txt", f, true)], false), File("b.txt", f, true)], true);
      && WellFormed(root)
      && FileAt(root, ["docs", "a.txt"]) == Some(f) && Skipped(root, ["docs", "a.txt"])
      && FileAt(root, ["b.txt"]) == Some(f) && !Skipped(root, ["b.txt"])
  {
    var f := LocalFile([1], 0);
    var docs, b := Dir("docs", [File("a.txt", f, true)], false), File("b.txt", f, true);
    var root := Dir("mirror", [docs, b], true);
    assert WellFormed(docs) && WellFormed(b);
    assert Child(docs.entries, "a.txt") == Some(File("a.txt", f, true));
    assert ["docs", "a.txt"][1..] == ["a.txt"] && ["a.txt"][1..] == [];
    assert FileAt(docs, ["a.txt"]) == Some(f);
    assert Child(root.entries, "docs") == Some(docs);
    assert root.entries[1..] == [b] && Child([b], "b.txt") == Some(b) && Child(root.entries, "b.txt") == Some(b);
    assert FileAt(b, []) == Some(f);
    PlainNames();
  }

  lemma PlainNames()
    ensures !StartsWith("mirror", ".syncdrive") && !EndsWith("b.txt", ".syncdrive-part")
    ensures IsName("docs") && IsName("a.txt") && IsName("b.txt")
  {
    assert "mirror"[0] != ".syncdrive"[0];
  }

  /** When the root itself cannot be read, everything in it is skipped. */
  lemma UnreadableRootSkipsAll(root: Entry, rel: RelPath)
    requires !root.readable
    ensures Skipped(root, rel) && !Seen(root, rel)
  {
  }
}
