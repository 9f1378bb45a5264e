// The incremental index over any sequence of edits, additions, deletions and
// builds: when it is what a first build would make.
module CodeIndexLaws {
  import opened Workplan
  import opened TextOrder
  import opened CodeGraph
  import opened CodeIndex

  // ----- any sequence of edits, additions and deletions -----

  datatype BuildCall = BuildCall(world: World, force: bool)

  function SeenAfter(builds: seq<BuildCall>): Seen {
    if builds == [] then map[]
    else NextSeen(SeenAfter(builds[..|builds| - 1]), builds[|builds| - 1].world, builds[|builds| - 1].force)
  }

  // What the builds leave in the tables.
  function TablesAfter(builds: seq<BuildCall>): Tables {
    if builds == [] then EMPTY
    else Built(TablesAfter(builds[..|builds| - 1]), builds[|builds| - 1].world, builds[|builds| - 1].force)
  }

  // Equal modification times mean equal contents, over the whole history.
  ghost predicate MtimesTell(builds: seq<BuildCall>) {
    forall i, j, rel :: 0 <= i < |builds| && 0 <= j < |builds| ==> Agree(builds[i].world.disk, builds[j].world.disk, rel)
  }

  predicate Agree(a: map<string, File>, b: map<string, File>, rel: string) {
    rel in a && rel in b && a[rel].mtime == b[rel].mtime ==> a[rel] == b[rel]
  }

  // Some build found the file listed and on the disk.
  predicate OccursAt(build: BuildCall, rel: string, file: File) {
    rel in build.world.listed && rel in build.world.disk && build.world.disk[rel] == file
  }

  ghost predicate Occurs(builds: seq<BuildCall>, rel: string, file: File) {
    exists i :: 0 <= i < |builds| && OccursAt(builds[i], rel, file)
  }

  lemma OccursLater(builds: seq<BuildCall>, last: BuildCall, rel: string, file: File)
    requires Occurs(builds, rel, file) || OccursAt(last, rel, file)
    ensures Occurs(builds + [last], rel, file)
  {
    if OccursAt(last, rel, file) {
      assert OccursAt((builds + [last])[|builds|], rel, file);
    } else {
      var i :| 0 <= i < |builds| && OccursAt(builds[i], rel, file);
      assert OccursAt((builds + [last])[i], rel, file);
    }
  }

  // Whatever is in the index was on the disk at some build.
  lemma {:induction false} SeenCameFromDisk(builds: seq<BuildCall>, rel: string)
    requires rel in SeenAfter(builds)
    ensures Occurs(builds, rel, SeenAfter(builds)[rel])
  {
    var front, last := builds[..|builds| - 1], builds[|builds| - 1];
    assert builds == front + [last];
    if !Stale(SeenAfter(front), last.world, last.force, rel) { SeenCameFromDisk(front, rel); }
    OccursLater(front, last, rel, SeenAfter(builds)[rel]);
  }

  // The last build gets the time stamp of every listed file that was indexed.
  ghost predicate NothingStuck(builds: seq<BuildCall>, last: BuildCall) {
    forall rel :: rel in last.world.listed && rel !in last.world.disk ==> rel !in SeenAfter(builds)
  }

  // After any sequence of builds the files seen are those that a build from
  // scratch would see, exactly under that condition.
  lemma IncrementalIsFresh(builds: seq<BuildCall>, last: BuildCall)
    requires MtimesTell(builds + [last])
    ensures SeenAfter(builds + [last]) == SeenAfter([last]) <==> NothingStuck(builds, last)
  {
    var all := builds + [last];
    assert all[..|builds|] == builds;
    var seen, next, scratch := SeenAfter(builds), SeenAfter(all), SeenAfter([last]);
    OneBuild(last);
    FirstBuild(last.world, last.force);
    if NothingStuck(builds, last) {
      forall rel | rel in next ensures rel in scratch && next[rel] == scratch[rel] {
        if !Stale(seen, last.world, last.force, rel) {
          SeenCameFromDisk(builds, rel);
          var i :| 0 <= i < |builds| && OccursAt(builds[i], rel, seen[rel]);
          assert all[i] == builds[i] && all[|builds|] == last;
          assert Agree(all[i].world.disk, all[|builds|].world.disk, rel);
        }
      }
      assert next == scratch;
    } else {
      var rel :| rel in last.world.listed && rel !in last.world.disk && rel in seen;
      assert rel in next && rel !in scratch;
    }
  }

  lemma OneBuild(build: BuildCall)
    ensures SeenAfter([build]) == NextSeen(map[], build.world, build.force)
    ensures TablesAfter([build]) == Built(EMPTY, build.world, build.force)
  {
    assert [build][..0] == [];
  }

  // A link that was indexed and dangles now is still listed where discovery
  // walks the directory, but has no time stamp: its rows stay.
  lemma DanglingLinkStays(rel: string, file: File)
    ensures var builds := [BuildCall(World([rel], map[rel := file]), false)];
            var last := BuildCall(World([rel], map[]), false);
            rel in SeenAfter(builds + [last]) && rel !in SeenAfter([last])
  {
    var first, last := BuildCall(World([rel], map[rel := file]), false), BuildCall(World([rel], map[]), false);
    assert ([first] + [last])[..1] == [first];
    OneBuild(first);
    OneBuild(last);
  }

  // ----- the tables that builds leave -----

  // No two files of the whole history clash.
  ghost predicate Clashless(builds: seq<BuildCall>) {
    forall a, fileA, b, fileB :: Occurs(builds, a, fileA) && Occurs(builds, b, fileB) && a != b ==> !Clash(a, fileA, b, fileB)
  }

  lemma ClashlessFront(front: seq<BuildCall>, last: BuildCall)
    requires Clashless(front + [last])
    ensures Clashless(front) && Clashless([last])
  {
    forall rel, file | Occurs(front, rel, file) || Occurs([last], rel, file) ensures Occurs(front + [last], rel, file) {
      OccursLater(front, last, rel, file);
    }
  }

  lemma ClashlessIsCompatible(front: seq<BuildCall>, last: BuildCall)
    requires Clashless(front + [last])
    ensures Compatible(SeenAfter(front), last.world)
  {
    forall rel, file | Version(SeenAfter(front), last.world, rel, file) ensures Occurs(front + [last], rel, file) {
      if rel in SeenAfter(front) && SeenAfter(front)[rel] == file { SeenCameFromDisk(front, rel); }
      OccursLater(front, last, rel, file);
    }
  }

  // Then the tables are those of the files seen, put into empty tables.
  lemma {:induction false} TablesAreSeen(builds: seq<BuildCall>)
    requires Clashless(builds)
    ensures Apart(SeenAfter(builds)) && TablesAfter(builds) == TablesOf(SeenAfter(builds))
  {
    if builds != [] {
      var front, last := builds[..|builds| - 1], builds[|builds| - 1];
      assert builds == front + [last];
      ClashlessFront(front, last);
      TablesAreSeen(front);
      ClashlessIsCompatible(front, last);
      BuildIsFaithful(SeenAfter(front), last.world, last.force);
    }
  }

  lemma {:induction false} FilesAfter(builds: seq<BuildCall>)
    ensures TablesAfter(builds).files == Mtimes(SeenAfter(builds))
  {
    if builds != [] {
      var front, last := builds[..|builds| - 1], builds[|builds| - 1];
      FilesAfter(front);
      FilesBuilt(TablesAfter(front), SeenAfter(front), last.world, last.force);
    }
  }

  lemma FilesBuilt(t: Tables, seen: Seen, world: World, force: bool)
    requires t.files == Mtimes(seen)
    ensures Built(t, world, force).files == Mtimes(NextSeen(seen, world, force))
  {
    var known := SortedSet(seen.Keys);
    assert Elements(known) == seen.Keys;
    FilesPurged(t, seen, world, known);
    var kept := Kept(seen, world, Elements(known));
    FilesReparsed(PurgedAll(t, world, known), kept, world, force, world.listed);
    KeptMeaning(seen, world);
    UpdatedMeaning(seen, kept, world, force);
    BuiltByLoops(t, world, force, known);
  }

  // What any builds leave in the tables is what a first build would leave,
  // exactly under the same condition as above, as long as no two files clash.
  lemma IncrementalTablesAreFresh(builds: seq<BuildCall>, last: BuildCall)
    requires MtimesTell(builds + [last])
    ensures TablesAfter(builds + [last]) == TablesAfter([last]) ==> NothingStuck(builds, last)
    ensures Clashless(builds + [last]) && NothingStuck(builds, last) ==> TablesAfter(builds + [last]) == TablesAfter([last])
  {
    IncrementalIsFresh(builds, last);
    if TablesAfter(builds + [last]) == TablesAfter([last]) {
      FilesAfter(builds + [last]);
      FilesAfter([last]);
      FilesTellSeen(SeenAfter(builds + [last]), SeenAfter([last]));
      NoneLeft(builds, last);
    }
    if Clashless(builds + [last]) && NothingStuck(builds, last) {
      ClashlessFront(builds, last);
      TablesAreSeen(builds + [last]);
      TablesAreSeen([last]);
    }
  }

  lemma NoneLeft(builds: seq<BuildCall>, last: BuildCall)
    requires SeenAfter(builds + [last]).Keys == SeenAfter([last]).Keys
    ensures NothingStuck(builds, last)
  {
    OneBuild(last);
    FirstBuild(last.world, last.force);
    assert (builds + [last])[..|builds|] == builds;
    forall rel | rel in last.world.listed && rel !in last.world.disk ensures rel !in SeenAfter(builds) {
      assert rel !in SeenAfter([last]).Keys;
    }
  }

  lemma {:induction false} FilesOf(seen: Seen)
    ensures TablesOf(seen).files == Mtimes(seen)
    decreases |seen|
  {
    if seen != map[] {
      var rel := LastInserted(seen);
      WithoutAndBack(seen, rel);
      FilesOf(seen - {rel});
      MtimesInserted(seen - {rel}, rel, seen[rel]);
    }
  }

  lemma FilesTellSeen(a: Seen, b: Seen)
    requires Mtimes(a) == Mtimes(b)
    ensures a.Keys == b.Keys
  {
    assert a.Keys == Mtimes(a).Keys && b.Keys == Mtimes(b).Keys;
  }

  // ----- which sets of paths an incremental build can be trusted with -----

  // No two of the paths can emit one id.
  ghost predicate ApartFor(isName: Names, paths: set<string>) {
    forall a, b :: a in paths && b in paths && CanShare(isName, a, b) ==> a == b
  }

  // All builds list only these paths, and all classes and functions have such names.
  ghost predicate Within(isName: Names, paths: set<string>, builds: seq<BuildCall>) {
    forall i :: 0 <= i < |builds| ==> BuildWithin(isName, paths, builds[i])
  }

  ghost predicate BuildWithin(isName: Names, paths: set<string>, build: BuildCall) {
    && (forall rel :: rel in build.world.listed ==> rel in paths)
    && (forall rel :: rel in build.world.disk ==> NamedFile(isName, build.world.disk[rel].tree))
  }

  ghost predicate AlwaysFresh(isName: Names, paths: set<string>) {
    forall builds, last :: Within(isName, paths, builds + [last]) && MtimesTell(builds + [last]) && NothingStuck(builds, last) ==>
      TablesAfter(builds + [last]) == TablesAfter([last])
  }

  lemma ApartIsClashless(isName: Names, paths: set<string>, builds: seq<BuildCall>)
    requires ApartFor(isName, paths) && Within(isName, paths, builds)
    ensures Clashless(builds)
  {
    forall a, fileA, b, fileB | Occurs(builds, a, fileA) && Occurs(builds, b, fileB) && a != b ensures !Clash(a, fileA, b, fileB) {
      OccursWithin(isName, paths, builds, a, fileA);
      OccursWithin(isName, paths, builds, b, fileB);
      if id :| id in NodeRows(ParseFile(a, fileA.tree).nodes) && id in NodeRows(ParseFile(b, fileB.tree).nodes) {
        RowIsIdOf(isName, a, fileA, id);
        RowIsIdOf(isName, b, fileB, id);
        assert CanShare(isName, a, b);
      }
    }
  }

  lemma OccursWithin(isName: Names, paths: set<string>, builds: seq<BuildCall>, rel: string, file: File)
    requires Within(isName, paths, builds) && Occurs(builds, rel, file)
    ensures rel in paths && NamedFile(isName, file.tree)
  {
    var i :| 0 <= i < |builds| && OccursAt(builds[i], rel, file);
    assert BuildWithin(isName, paths, builds[i]);
  }

  lemma RowIsIdOf(isName: Names, rel: string, file: File, id: string)
    requires NamedFile(isName, file.tree) && id in NodeRows(ParseFile(rel, file.tree).nodes)
    ensures IdOf(isName, rel, id)
  {
    NodeRowsIds(ParseFile(rel, file.tree).nodes, id);
    EmittedIsIdOf(isName, rel, file.tree, id);
  }

  // Two builds of which the second drops a file.
  function Both(a: string, fileA: File, b: string, fileB: File): BuildCall {
    BuildCall(World([a, b], map[a := fileA, b := fileB]), false)
  }

  function Alone(a: string, fileA: File): BuildCall {
    BuildCall(World([a], map[a := fileA]), false)
  }

  // Wherever two files emit one id, dropping the one that was indexed last
  // takes the other's row with it, which a first build has.
  lemma CollisionLosesARow(a: string, fileA: File, b: string, fileB: File, id: string)
    requires a != b && Emits(ParseFile(a, fileA.tree), id) && Emits(ParseFile(b, fileB.tree), id)
    ensures id !in TablesAfter([Both(a, fileA, b, fileB)] + [Alone(a, fileA)]).nodes
    ensures id in TablesAfter([Alone(a, fileA)]).nodes
  {
    TwoFilesThenOne(a, fileA, b, fileB);
    NodeRowsIds(ParseFile(a, fileA.tree).nodes, id);
    NodeRowsIds(ParseFile(b, fileB.tree).nodes, id);
    NodeRowsMeaning(ParseFile(b, fileB.tree).nodes, id);
    ParsedIsRooted(b, fileB.tree);
  }

  // The two builds, unfolded.
  lemma TwoFilesThenOne(a: string, fileA: File, b: string, fileB: File)
    requires a != b
    ensures var alone := Inserted(Purged(EMPTY, a), a, fileA);
            && TablesAfter([Alone(a, fileA)]) == alone
            && TablesAfter([Both(a, fileA, b, fileB)] + [Alone(a, fileA)]) == Purged(Inserted(Purged(alone, b), b, fileB), b)
  {
    var both, one := Both(a, fileA, b, fileB), Alone(a, fileA);
    OneBuild(one);
    ReparseOne(one.world, a);
    TwoBuilds(both, one);
    ReparseTwo(both.world, a, b);
    DropSecond(TablesAfter([both]), one.world, a, b);
  }

  lemma TwoBuilds(first: BuildCall, second: BuildCall)
    ensures TablesAfter([first]) == Built(EMPTY, first.world, first.force)
    ensures TablesAfter([first] + [second]) == Built(TablesAfter([first]), second.world, second.force)
  {
    OneBuild(first);
    assert ([first] + [second])[..1] == [first];
  }

  lemma NothingMissing(world: World)
    ensures Without(EMPTY, Missing(world, EMPTY.files.Keys)) == EMPTY
  {
    assert Missing(world, EMPTY.files.Keys) == {};
  }

  lemma ReparseOne(world: World, a: string)
    requires world.listed == [a] && a in world.disk
    ensures Built(EMPTY, world, false) == Inserted(Purged(EMPTY, a), a, world.disk[a])
  {
    NothingMissing(world);
    assert [a][..0] == [] && !Skips(EMPTY, world, false, a);
    assert ReparsedAll(EMPTY, world, false, [a]) == Inserted(Purged(EMPTY, a), a, world.disk[a]);
  }

  lemma ReparseTwo(world: World, a: string, b: string)
    requires a != b && world.listed == [a, b] && a in world.disk && b in world.disk
    ensures var alone := Inserted(Purged(EMPTY, a), a, world.disk[a]);
            Built(EMPTY, world, false) == Inserted(Purged(alone, b), b, world.disk[b])
  {
    NothingMissing(world);
    assert [a, b][..1] == [a] && [a][..0] == [];
    var alone := Inserted(Purged(EMPTY, a), a, world.disk[a]);
    assert ReparsedAll(EMPTY, world, false, [a]) == alone;
    assert !Skips(alone, world, false, b) && [a, b][1] == b;
    assert ReparsedAll(EMPTY, world, false, [a, b]) == Inserted(Purged(alone, b), b, world.disk[b]);
  }

  lemma DropSecond(t: Tables, world: World, a: string, b: string)
    requires a != b && world.listed == [a] && a in world.disk
    requires t.files.Keys == {a, b} && t.files[a] == world.disk[a].mtime
    ensures Built(t, world, false) == Purged(t, b)
  {
    assert Missing(world, t.files.Keys) == {b};
    WithoutOne(t, b);
    SkipOne(Purged(t, b), world, a);
  }

  lemma WithoutOne(t: Tables, b: string)
    ensures Without(t, {b}) == Purged(t, b)
  {
  }

  lemma SkipOne(t: Tables, world: World, a: string)
    requires Skips(t, world, false, a)
    ensures ReparsedAll(t, world, false, [a]) == t
  {
    assert [a][..0] == [];
  }

  // All builds over a set of paths leave the tables of a first build, under
  // the condition on time stamps, exactly when no two of the paths can emit
  // one id.
  lemma AlwaysFreshIff(isName: Names, paths: set<string>)
    ensures AlwaysFresh(isName, paths) <==> ApartFor(isName, paths)
  {
    if ApartFor(isName, paths) {
      forall builds, last | Within(isName, paths, builds + [last]) && MtimesTell(builds + [last]) && NothingStuck(builds, last)
        ensures TablesAfter(builds + [last]) == TablesAfter([last])
      {
        ApartIsClashless(isName, paths, builds + [last]);
        IncrementalTablesAreFresh(builds, last);
      }
    } else {
      var a, b :| a in paths && b in paths && CanShare(isName, a, b) && a != b;
      SharingBreaks(isName, paths, a, b);
    }
  }

  lemma SharingBreaks(isName: Names, paths: set<string>, a: string, b: string)
    requires a in paths && b in paths && a != b && CanShare(isName, a, b)
    ensures !AlwaysFresh(isName, paths)
  {
    var id :| IdOf(isName, a, id) && IdOf(isName, b, id);
    var treeA := TreeThatEmits(isName, a, id);
    var treeB := TreeThatEmits(isName, b, id);
    var both, one := Both(a, File(1, treeA), b, File(1, treeB)), Alone(a, File(1, treeA));
    CollisionLosesARow(a, File(1, treeA), b, File(1, treeB), id);
    TwoBuildsQualify(isName, paths, a, File(1, treeA), b, File(1, treeB));
    NotAlwaysFresh(isName, paths, [both], one);
  }

  lemma NotAlwaysFresh(isName: Names, paths: set<string>, builds: seq<BuildCall>, last: BuildCall)
    requires Within(isName, paths, builds + [last]) && MtimesTell(builds + [last]) && NothingStuck(builds, last)
    requires TablesAfter(builds + [last]) != TablesAfter([last])
    ensures !AlwaysFresh(isName, paths)
  {
  }

  lemma TwoBuildsQualify(isName: Names, paths: set<string>, a: string, fileA: File, b: string, fileB: File)
    requires a in paths && b in paths && a != b && NamedFile(isName, fileA.tree) && NamedFile(isName, fileB.tree)
    ensures var both, one := Both(a, fileA, b, fileB), Alone(a, fileA);
            Within(isName, paths, [both] + [one]) && MtimesTell([both] + [one]) && NothingStuck([both], one)
  {
    var both, one := Both(a, fileA, b, fileB), Alone(a, fileA);
    assert BuildWithin(isName, paths, both) && BuildWithin(isName, paths, one);
    var builds := [both] + [one];
    forall i, j, rel | 0 <= i < 2 && 0 <= j < 2 ensures Agree(builds[i].world.disk, builds[j].world.disk, rel) {
    }
  }

  // With Python's names: no path is another one, a colon, and names joined by dots.
  lemma ApartForPython(isName: Names, paths: set<string>)
    requires forall name :: isName(name) ==> ':' !in name
    ensures ApartFor(isName, paths) <==> forall a, b :: a in paths && b in paths ==> !Extends(isName, a, b)
  {
    forall a, b ensures CanShare(isName, a, b) <==> a == b || Extends(isName, a, b) || Extends(isName, b, a) { ShareIff(isName, a, b); }
    forall a ensures !Extends(isName, a, a) { NoPathExtendsItself(isName, a); }
  }

  lemma NoPathExtendsItself(isName: Names, a: string)
    ensures !Extends(isName, a, a)
  {
    forall quals: seq<string> ensures |DottedId(a, quals)| > |a| {
    }
  }

  // With any names: no path is an id of another.
  lemma ApartForAny(paths: set<string>)
    ensures ApartFor(AnyName, paths) <==> forall a, b :: a in paths && b in paths && Owned(a, b) ==> a == b
  {
    forall a, b ensures CanShare(AnyName, a, b) <==> Owned(a, b) || Owned(b, a) { AnyShareIff(a, b); }
  }

  // Paths without colons are apart, whatever the names.
  lemma PlainPathsAreApart(isName: Names, paths: set<string>)
    requires forall rel :: rel in paths ==> ':' !in rel
    ensures ApartFor(isName, paths)
  {
    forall a, b | a in paths && b in paths && CanShare(isName, a, b) ensures a == b {
      var id :| IdOf(isName, a, id) && IdOf(isName, b, id);
      IdIsOwned(isName, a, id);
      IdIsOwned(isName, b, id);
      OneOwner(a, b, id);
    }
  }
}
