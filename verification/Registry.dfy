/** The skill registry of `skills.rs`: two shelves, a denylist and the assigned app skills. */
module Registry {
  import opened Wrappers
  import opened Text

  const APP_SKILL_PREFIX := "kim-"

  datatype Meta = Meta(name: string, description: string, version: string)

  /** A directory entry: its name as text, its path, whether it is a directory, and its SKILL.md, if readable. */
  datatype DirEntry = DirEntry(name: string, path: string, isDir: bool, doc: Option<Meta>)

  /** What is found in the directory at a path; nothing, if it cannot be read. */
  type Disk = string -> seq<DirEntry>

  datatype Portable = Portable(id: string, dir: string, meta: Meta)

  // ---------------------------------------------------------------- what a shelf holds

  predicate Listed(e: DirEntry) {
    e.isDir && !StartsWith(e.name, ".") && !StartsWith(e.name, APP_SKILL_PREFIX) && e.doc.Some?
  }

  function PortableOf(e: DirEntry): Portable
    requires Listed(e)
  {
    var meta := e.doc.value;
    Portable(e.name, e.path, if Trim(meta.name) == "" then meta.(name := e.name) else meta)
  }

  /** A shelf as a map: of two entries with one name as text, the later one. */
  function ShelfMap(entries: seq<DirEntry>): (m: map<string, Portable>)
    ensures forall id :: id in m ==> m[id].id == id && !StartsWith(id, APP_SKILL_PREFIX)
  {
    if entries == [] then map[]
    else
      var rest, last := ShelfMap(entries[..|entries| - 1]), entries[|entries| - 1];
      if Listed(last) then rest[last.name := PortableOf(last)] else rest
  }

  /** The listed skills, in the order of the directory. */
  function Kept(entries: seq<DirEntry>): seq<Portable> {
    if entries == [] then []
    else
      Kept(entries[..|entries| - 1]) +
      if Listed(entries[|entries| - 1]) then [PortableOf(entries[|entries| - 1])] else []
  }

  /** A list of skills as a map, in the way of insertion in order. */
  function Index(skills: seq<Portable>): map<string, Portable> {
    if skills == [] then map[]
    else Index(skills[..|skills| - 1])[skills[|skills| - 1].id := skills[|skills| - 1]]
  }

  lemma IndexSnoc(skills: seq<Portable>, skill: Portable)
    ensures Index(skills + [skill]) == Index(skills)[skill.id := skill]
  {
    assert (skills + [skill])[..|skills|] == skills;
  }

  lemma {:induction false} KeptIndex(entries: seq<DirEntry>)
    ensures Index(Kept(entries)) == ShelfMap(entries)
  {
    if entries == [] {
    } else {
      KeptIndex(entries[..|entries| - 1]);
      if Listed(entries[|entries| - 1]) {
        var last := PortableOf(entries[|entries| - 1]);
        assert Kept(entries) == Kept(entries[..|entries| - 1]) + [last];
        IndexSnoc(Kept(entries[..|entries| - 1]), last);
      } else {
        assert Kept(entries) == Kept(entries[..|entries| - 1]);
      }
    }
  }

  // ---------------------------------------------------------------- the stable sort

  predicate Ordered(skills: seq<Portable>) {
    forall i, j :: 0 <= i < j < |skills| ==> !Less(skills[j].id, skills[i].id)
  }

  /** Puts a skill behind those with the same id or a lesser one. */
  function Insert(skills: seq<Portable>, skill: Portable): seq<Portable> {
    if skills == [] || !Less(skill.id, skills[|skills| - 1].id) then skills + [skill]
    else Insert(skills[..|skills| - 1], skill) + [skills[|skills| - 1]]
  }

  /** `sort_by` on the id: stable. */
  function SortedById(skills: seq<Portable>): seq<Portable> {
    if skills == [] then [] else Insert(SortedById(skills[..|skills| - 1]), skills[|skills| - 1])
  }

  lemma {:induction false} InsertRearranges(skills: seq<Portable>, skill: Portable)
    ensures multiset(Insert(skills, skill)) == multiset(skills) + multiset{skill}
  {
    if skills == [] || !Less(skill.id, skills[|skills| - 1].id) {
    } else {
      InsertRearranges(skills[..|skills| - 1], skill);
      assert skills == skills[..|skills| - 1] + [skills[|skills| - 1]];
    }
  }

  lemma {:induction false} InsertKeepsIndex(skills: seq<Portable>, skill: Portable)
    ensures Index(Insert(skills, skill)) == Index(skills)[skill.id := skill]
  {
    if skills == [] || !Less(skill.id, skills[|skills| - 1].id) {
      IndexSnoc(skills, skill);
    } else {
      var last := skills[|skills| - 1];
      InsertKeepsIndex(skills[..|skills| - 1], skill);
      IndexSnoc(Insert(skills[..|skills| - 1], skill), last);
      LessIrreflexive(last.id);
    }
  }

  lemma NotBelow(key: string, a: string, last: string)
    requires !Less(key, last) && !Less(last, a)
    ensures !Less(key, a)
  {
    LessTotal(a, last);
    if Less(key, a) && Less(a, last) {
      LessTrans(key, a, last);
    }
  }

  lemma Asymmetric(a: string, b: string)
    requires Less(a, b)
    ensures !Less(b, a)
  {
    if Less(b, a) {
      LessTrans(a, b, a);
      LessIrreflexive(a);
    }
  }

  lemma {:induction false} InsertKeepsOrder(skills: seq<Portable>, skill: Portable)
    requires Ordered(skills)
    ensures Ordered(Insert(skills, skill))
    ensures forall x :: x in Insert(skills, skill) ==> x == skill || x in skills
  {
    if skills == [] {
    } else if !Less(skill.id, skills[|skills| - 1].id) {
      forall i | 0 <= i < |skills| - 1
        ensures !Less(skill.id, skills[i].id)
      {
        NotBelow(skill.id, skills[i].id, skills[|skills| - 1].id);
      }
    } else {
      InsertKeepsOrder(skills[..|skills| - 1], skill);
      Asymmetric(skill.id, skills[|skills| - 1].id);
      OrderedSnoc(Insert(skills[..|skills| - 1], skill), skills[|skills| - 1]);
    }
  }

  lemma OrderedSnoc(skills: seq<Portable>, last: Portable)
    requires Ordered(skills) && forall x :: x in skills ==> !Less(last.id, x.id)
    ensures Ordered(skills + [last])
  {
  }

  lemma {:induction false} SortOrders(skills: seq<Portable>)
    ensures Ordered(SortedById(skills))
  {
    if skills == [] {
    } else {
      SortOrders(skills[..|skills| - 1]);
      InsertKeepsOrder(SortedById(skills[..|skills| - 1]), skills[|skills| - 1]);
    }
  }

  lemma MultisetSnoc(skills: seq<Portable>)
    requires skills != []
    ensures multiset(skills) == multiset(skills[..|skills| - 1]) + multiset{skills[|skills| - 1]}
  {
    assert skills == skills[..|skills| - 1] + [skills[|skills| - 1]];
  }

  lemma {:induction false} SortRearranges(skills: seq<Portable>)
    ensures multiset(SortedById(skills)) == multiset(skills)
  {
    if skills == [] {
    } else {
      SortRearranges(skills[..|skills| - 1]);
      InsertRearranges(SortedById(skills[..|skills| - 1]), skills[|skills| - 1]);
      MultisetSnoc(skills);
    }
  }

  /** The sort is stable: it leaves the map alone even where ids repeat. */
  lemma {:induction false} SortKeepsIndex(skills: seq<Portable>)
    ensures Index(SortedById(skills)) == Index(skills)
  {
    if skills == [] {
    } else {
      SortKeepsIndex(skills[..|skills| - 1]);
      InsertKeepsIndex(SortedById(skills[..|skills| - 1]), skills[|skills| - 1]);
    }
  }

  /** `scan_portable` */
  method ScanPortable(disk: Disk, dir: string) returns (out: seq<Portable>)
    ensures Ordered(out) && multiset(out) == multiset(Kept(disk(dir)))
    ensures Index(out) == ShelfMap(disk(dir))
  {
    var entries := disk(dir);
    out := [];
    var i := 0;
    while i < |entries|
      invariant 0 <= i <= |entries|
      invariant out == Kept(entries[..i])
    {
      var entry := entries[i];
      assert entries[..i + 1][..i] == entries[..i];
      i := i + 1;
      if !entry.isDir {
        continue;
      }
      if StartsWith(entry.name, ".") {
        continue;
      }
      if StartsWith(entry.name, APP_SKILL_PREFIX) {
        continue;
      }
      if entry.doc.None? {
        continue;
      }
      var meta := entry.doc.value;
      if Trim(meta.name) == "" {
        meta := meta.(name := entry.name);
      }
      out := out + [Portable(entry.name, entry.path, meta)];
    }
    assert entries[..i] == entries;
    KeptIndex(entries);
    SortKeepsIndex(out);
    SortOrders(out);
    SortRearranges(out);
    out := SortedById(out);
  }

  // ---------------------------------------------------------------- the ordered map

  /** A `BTreeMap` from ids: its rows in the order of the keys. */
  type TreeMap<V> = seq<(string, V)>

  predicate Ascending<V>(t: TreeMap<V>) {
    forall i, j :: 0 <= i < j < |t| ==> Less(t[i].0, t[j].0)
  }

  function Contents<V>(t: TreeMap<V>): map<string, V> {
    if t == [] then map[] else Contents(t[..|t| - 1])[t[|t| - 1].0 := t[|t| - 1].1]
  }

  function Put<V>(t: TreeMap<V>, key: string, value: V): TreeMap<V> {
    if t == [] || Less(t[|t| - 1].0, key) then t + [(key, value)]
    else if t[|t| - 1].0 == key then t[..|t| - 1] + [(key, value)]
    else Put(t[..|t| - 1], key, value) + [t[|t| - 1]]
  }

  lemma ContentsSnoc<V>(t: TreeMap<V>, row: (string, V))
    ensures Contents(t + [row]) == Contents(t)[row.0 := row.1]
  {
    assert (t + [row])[..|t|] == t;
  }

  /** Every key of the map has its row and every row its key. */
  lemma {:induction false} ContentsAre<V>(t: TreeMap<V>)
    requires Ascending(t)
    ensures forall i :: 0 <= i < |t| ==> t[i].0 in Contents(t) && Contents(t)[t[i].0] == t[i].1
    ensures forall key :: key in Contents(t) ==> exists i :: 0 <= i < |t| && t[i].0 == key
  {
    if t == [] {
    } else {
      var init, last := t[..|t| - 1], t[|t| - 1];
      ContentsAre(init);
      assert t == init + [last];
      forall i | 0 <= i < |init|
        ensures init[i].0 != last.0
      {
        assert Less(t[i].0, t[|t| - 1].0);
        LessIrreflexive(last.0);
      }
      forall key | key in Contents(t)
        ensures exists i :: 0 <= i < |t| && t[i].0 == key
      {
        if key != last.0 {
          assert key in Contents(init);
          var i :| 0 <= i < |init| && init[i].0 == key;
          assert t[i].0 == key;
        } else {
          assert t[|t| - 1].0 == key;
        }
      }
    }
  }

  lemma AscendingSnoc<V>(t: TreeMap<V>, row: (string, V))
    requires Ascending(t) && forall x :: x in t ==> Less(x.0, row.0)
    ensures Ascending(t + [row])
  {
  }

  lemma {:induction false} PutKeepsContents<V>(t: TreeMap<V>, key: string, value: V)
    ensures Contents(Put(t, key, value)) == Contents(t)[key := value]
  {
    if t == [] || Less(t[|t| - 1].0, key) {
      ContentsSnoc(t, (key, value));
    } else if t[|t| - 1].0 == key {
      ContentsSnoc(t[..|t| - 1], (key, value));
    } else {
      PutKeepsContents(t[..|t| - 1], key, value);
      ContentsSnoc(Put(t[..|t| - 1], key, value), t[|t| - 1]);
    }
  }

  lemma {:induction false} PutKeepsOrder<V>(t: TreeMap<V>, key: string, value: V)
    requires Ascending(t)
    ensures Ascending(Put(t, key, value))
    ensures forall row :: row in Put(t, key, value) ==> row == (key, value) || row in t
  {
    if t == [] {
    } else if Less(t[|t| - 1].0, key) {
      forall i | 0 <= i < |t| - 1
        ensures Less(t[i].0, key)
      {
        LessTrans(t[i].0, t[|t| - 1].0, key);
      }
      AscendingSnoc(t, (key, value));
    } else if t[|t| - 1].0 == key {
      AscendingSnoc(t[..|t| - 1], (key, value));
    } else {
      LessTotal(t[|t| - 1].0, key);
      PutKeepsOrder(t[..|t| - 1], key, value);
      AscendingSnoc(Put(t[..|t| - 1], key, value), t[|t| - 1]);
    }
  }

  /** A shelf's map with its skills wrapped. */
  function Wrapped<V>(m: map<string, Portable>, wrap: Portable -> V): map<string, V> {
    map id | id in m :: wrap(m[id])
  }

  lemma WrappedSnoc<V>(found: map<string, V>, m: map<string, Portable>, skill: Portable, wrap: Portable -> V)
    ensures (found + Wrapped(m, wrap))[skill.id := wrap(skill)] == found + Wrapped(m[skill.id := skill], wrap)
  {
  }

  method EnterAll<V>(found: TreeMap<V>, skills: seq<Portable>, wrap: Portable -> V) returns (entered: TreeMap<V>)
    requires Ascending(found)
    ensures Ascending(entered) && Contents(entered) == Contents(found) + Wrapped(Index(skills), wrap)
  {
    entered := found;
    var i := 0;
    while i < |skills|
      invariant 0 <= i <= |skills|
      invariant Ascending(entered)
      invariant Contents(entered) == Contents(found) + Wrapped(Index(skills[..i]), wrap)
    {
      PutKeepsContents(entered, skills[i].id, wrap(skills[i]));
      PutKeepsOrder(entered, skills[i].id, wrap(skills[i]));
      IndexSnoc(skills[..i], skills[i]);
      WrappedSnoc(Contents(found), Index(skills[..i]), skills[i], wrap);
      assert skills[..i + 1] == skills[..i] + [skills[i]];
      entered := Put(entered, skills[i].id, wrap(skills[i]));
      i := i + 1;
    }
    assert skills[..i] == skills;
  }

  /** Enters what is on a shelf into the map found so far: it takes the place of what was there. */
  method EnterShelf<V>(found: TreeMap<V>, disk: Disk, dir: string, wrap: Portable -> V) returns (entered: TreeMap<V>)
    requires Ascending(found)
    ensures Ascending(entered) && Contents(entered) == Contents(found) + Wrapped(ShelfMap(disk(dir)), wrap)
  {
    var skills := ScanPortable(disk, dir);
    entered := EnterAll(found, skills, wrap);
  }

  // ---------------------------------------------------------------- the registry

  datatype SkillClass = PortableClass | AppClass

  datatype SkillRef = SkillRef(id: string, class_: SkillClass, origin: string, version: string, enabled: bool)

  /** What an id and a version resolve to; the package carries the id asked for. */
  datatype Package = Package(version: string, origin: string, meta: Meta)

  type Resolver = (string, string) -> Option<Package>

  datatype SkillSource = FromShelf(dir: string) | FromApp(origin: string, pin: string, version: string)

  datatype SkillEntry = SkillEntry(id: string, class_: SkillClass, meta: Meta, source: SkillSource)

  datatype SkillRegistry = SkillRegistry(app: seq<SkillEntry>, portable: seq<SkillEntry>)

  datatype RegistryScan = RegistryScan(enabled: bool, userRoot: string, projectRoot: string)

  /** `project_root.join(".agents").join("skills")` */
  function ProjectShelf(root: string): string {
    if root == "" then ".agents/skills" else root + "/.agents/skills"
  }

  /** The shelf a trimmed root stands for; a blank root stands for none. */
  function ShelfIf(present: bool, disk: Disk, dir: string): map<string, Portable> {
    if present then ShelfMap(disk(dir)) else map[]
  }

  /** Both shelves as one map: the project's skill wins over the user's of the same id. */
  function Merged(disk: Disk, userRoot: string, projectRoot: string): (m: map<string, Portable>)
    ensures forall id :: id in m ==> m[id].id == id && !StartsWith(id, APP_SKILL_PREFIX)
  {
    ShelfIf(Trim(userRoot) != "", disk, Trim(userRoot)) + ShelfMap(disk(ProjectShelf(projectRoot)))
  }

  predicate Denied(denylist: seq<string>, id: string) {
    exists i :: 0 <= i < |denylist| && Trim(denylist[i]) == id
  }

  predicate HasId(entries: seq<SkillEntry>, id: string) {
    exists i :: 0 <= i < |entries| && entries[i].id == id
  }

  function PortableEntry(skill: Portable): SkillEntry {
    SkillEntry(skill.id, PortableClass, skill.meta, FromShelf(skill.dir))
  }

  function AppEntry(ref: SkillRef, package: Package): SkillEntry {
    SkillEntry(ref.id, AppClass, package.meta, FromApp(package.origin, Trim(ref.version), package.version))
  }

  /** The entries, in the order of their ids, of the skills in `m` that `keep` keeps: these and no others. */
  ghost predicate Shows(entries: seq<SkillEntry>, m: map<string, Portable>, keep: string -> bool) {
    && (forall i, j :: 0 <= i < j < |entries| ==> Less(entries[i].id, entries[j].id))
    && (forall i :: 0 <= i < |entries| ==>
          entries[i].id in m && keep(entries[i].id) && entries[i] == PortableEntry(m[entries[i].id]))
    && (forall id :: id in m && keep(id) ==> HasId(entries, id))
  }

  /** The entries of the rows whose key `keep` keeps. */
  function Survivors(found: TreeMap<Portable>, keep: string -> bool): seq<SkillEntry> {
    if found == [] then []
    else
      var (id, skill) := found[|found| - 1];
      Survivors(found[..|found| - 1], keep) +
      if keep(id) then [SkillEntry(id, PortableClass, skill.meta, FromShelf(skill.dir))] else []
  }

  lemma {:induction false} SurvivorsSound(found: TreeMap<Portable>, keep: string -> bool, e: SkillEntry) returns (k: nat)
    requires e in Survivors(found, keep)
    ensures k < |found| && keep(found[k].0)
    ensures e == SkillEntry(found[k].0, PortableClass, found[k].1.meta, FromShelf(found[k].1.dir))
  {
    var init := found[..|found| - 1];
    if e in Survivors(init, keep) {
      k := SurvivorsSound(init, keep, e);
    } else {
      k := |found| - 1;
    }
  }

  lemma {:induction false} SurvivorsComplete(found: TreeMap<Portable>, keep: string -> bool, k: nat)
    requires k < |found| && keep(found[k].0)
    ensures HasId(Survivors(found, keep), found[k].0)
  {
    var init := found[..|found| - 1];
    var before, entries := Survivors(init, keep), Survivors(found, keep);
    if k < |init| {
      SurvivorsComplete(init, keep, k);
      var i :| 0 <= i < |before| && before[i].id == found[k].0;
      assert entries[i] == before[i];
    } else {
      assert entries[|before|].id == found[k].0;
    }
  }

  lemma {:induction false} SurvivorsAscend(found: TreeMap<Portable>, keep: string -> bool, i: nat, j: nat)
    requires Ascending(found) && i < j < |Survivors(found, keep)|
    ensures Less(Survivors(found, keep)[i].id, Survivors(found, keep)[j].id)
  {
    var init := found[..|found| - 1];
    if j < |Survivors(init, keep)| {
      SurvivorsAscend(init, keep, i, j);
    } else {
      var k := SurvivorsSound(init, keep, Survivors(init, keep)[i]);
      assert found[k] == init[k];
    }
  }

  lemma SurvivorsShow(found: TreeMap<Portable>, keep: string -> bool)
    requires Ascending(found) && forall id :: id in Contents(found) ==> Contents(found)[id].id == id
    ensures Shows(Survivors(found, keep), Contents(found), keep)
  {
    var entries := Survivors(found, keep);
    ContentsAre(found);
    forall i, j | 0 <= i < j < |entries|
      ensures Less(entries[i].id, entries[j].id)
    {
      SurvivorsAscend(found, keep, i, j);
    }
    forall i | 0 <= i < |entries|
      ensures entries[i].id in Contents(found) && keep(entries[i].id) && entries[i] == PortableEntry(Contents(found)[entries[i].id])
    {
      var k := SurvivorsSound(found, keep, entries[i]);
    }
    forall id | id in Contents(found) && keep(id)
      ensures HasId(entries, id)
    {
      var k :| 0 <= k < |found| && found[k].0 == id;
      SurvivorsComplete(found, keep, k);
    }
  }

  /** The reference has a say: enabled, of the app class, with the app prefix. */
  predicate Eligible(ref: SkillRef) {
    ref.enabled && ref.class_ == AppClass && StartsWith(ref.id, APP_SKILL_PREFIX)
  }

  predicate Resolves(refs: seq<SkillRef>, i: int, resolve: Resolver) {
    0 <= i < |refs| && Eligible(refs[i]) && resolve(refs[i].id, refs[i].version).Some?
  }

  /** The first reference to its id that has a say and resolves. */
  predicate Assigned(refs: seq<SkillRef>, i: int, resolve: Resolver) {
    && Resolves(refs, i, resolve)
    && forall j :: 0 <= j < i && Resolves(refs, j, resolve) ==> refs[j].id != refs[i].id
  }

  /** The entries of the assigned references among the first `n`, in their order. */
  function AppEntries(refs: seq<SkillRef>, n: nat, resolve: Resolver): seq<SkillEntry>
    requires n <= |refs|
  {
    if n == 0 then []
    else
      AppEntries(refs, n - 1, resolve) +
      if Assigned(refs, n - 1, resolve)
      then [AppEntry(refs[n - 1], resolve(refs[n - 1].id, refs[n - 1].version).value)] else []
  }

  /** One of the first `n` references with that id resolves. */
  predicate ResolvedId(refs: seq<SkillRef>, n: nat, resolve: Resolver, id: string) {
    exists j :: 0 <= j < n && Resolves(refs, j, resolve) && refs[j].id == id
  }

  lemma HasIdSnoc(entries: seq<SkillEntry>, e: SkillEntry, id: string)
    ensures HasId(entries + [e], id) <==> HasId(entries, id) || e.id == id
  {
    if HasId(entries, id) {
      var i :| 0 <= i < |entries| && entries[i].id == id;
      assert (entries + [e])[i].id == id;
    }
    assert (entries + [e])[|entries|] == e;
  }

  /** The ids of the app entries are those that some reference resolves. */
  lemma {:induction false} AppIdsExactly(refs: seq<SkillRef>, n: nat, resolve: Resolver, id: string)
    requires n <= |refs|
    ensures HasId(AppEntries(refs, n, resolve), id) <==> ResolvedId(refs, n, resolve, id)
  {
    if n == 0 {
    } else {
      AppIdsExactly(refs, n - 1, resolve, id);
      if Assigned(refs, n - 1, resolve) {
        HasIdSnoc(AppEntries(refs, n - 1, resolve),
                  AppEntry(refs[n - 1], resolve(refs[n - 1].id, refs[n - 1].version).value), id);
      } else {
        assert AppEntries(refs, n, resolve) == AppEntries(refs, n - 1, resolve);
      }
    }
  }

  predicate DistinctIds(entries: seq<SkillEntry>) {
    forall i, j :: 0 <= i < j < |entries| ==> entries[i].id != entries[j].id
  }

  predicate AllApp(entries: seq<SkillEntry>) {
    forall i :: 0 <= i < |entries| ==> StartsWith(entries[i].id, APP_SKILL_PREFIX) && entries[i].class_ == AppClass
  }

  lemma AppIdsSnoc(refs: seq<SkillRef>, n: nat, resolve: Resolver)
    requires n < |refs| && DistinctIds(AppEntries(refs, n, resolve)) && AllApp(AppEntries(refs, n, resolve))
    requires Assigned(refs, n, resolve) && !HasId(AppEntries(refs, n, resolve), refs[n].id)
    ensures DistinctIds(AppEntries(refs, n + 1, resolve)) && AllApp(AppEntries(refs, n + 1, resolve))
  {
  }

  lemma {:induction false} AppIdsDistinct(refs: seq<SkillRef>, n: nat, resolve: Resolver)
    requires n <= |refs|
    ensures DistinctIds(AppEntries(refs, n, resolve)) && AllApp(AppEntries(refs, n, resolve))
  {
    if n == 0 {
      assert AppEntries(refs, n, resolve) == [];
    } else {
      AppIdsDistinct(refs, n - 1, resolve);
      if Assigned(refs, n - 1, resolve) {
        AppIdsExactly(refs, n - 1, resolve, refs[n - 1].id);
        AppIdsSnoc(refs, n - 1, resolve);
      } else {
        assert AppEntries(refs, n, resolve) == AppEntries(refs, n - 1, resolve);
      }
    }
  }

  /** The loop over the references. */
  method AssignApps(refs: seq<SkillRef>, resolve: Resolver) returns (app: seq<SkillEntry>)
    ensures app == AppEntries(refs, |refs|, resolve)
  {
    app := [];
    var i := 0;
    while i < |refs|
      invariant 0 <= i <= |refs|
      invariant app == AppEntries(refs, i, resolve)
    {
      var candidate := refs[i];
      AppIdsExactly(refs, i, resolve, candidate.id);
      i := i + 1;
      if !candidate.enabled || candidate.class_ != AppClass {
        continue;
      }
      if !StartsWith(candidate.id, APP_SKILL_PREFIX) {
        continue;
      }
      if HasId(app, candidate.id) {
        continue;
      }
      var package := resolve(candidate.id, candidate.version);
      if package.Some? {
        app := app + [AppEntry(candidate, package.value)];
      }
    }
  }

  lemma WrappedSame(m: map<string, Portable>, wrap: Portable -> Portable)
    requires forall skill :: wrap(skill) == skill
    ensures Wrapped(m, wrap) == m
  {
  }

  /** The shelves' loops: the project's ships with the repository, so it comes second. */
  method FindPortable(disk: Disk, userRoot: string, projectRoot: string) returns (found: TreeMap<Portable>)
    ensures Ascending(found)
    ensures Contents(found) == ShelfIf(userRoot != "", disk, userRoot) + ShelfMap(disk(ProjectShelf(projectRoot)))
  {
    found := [];
    var wrap: Portable -> Portable := skill => skill;
    WrappedSame(ShelfMap(disk(userRoot)), wrap);
    WrappedSame(ShelfMap(disk(ProjectShelf(projectRoot))), wrap);
    if userRoot != "" {
      found := EnterShelf(found, disk, userRoot, wrap);
    }
    found := EnterShelf(found, disk, ProjectShelf(projectRoot), wrap);
  }

  /** The loop over the skills found: the denied ones drop out, and those with the id of an app skill. */
  method AdmitPortable(found: TreeMap<Portable>, denylist: seq<string>, app: seq<SkillEntry>)
    returns (portable: seq<SkillEntry>)
    ensures portable == Survivors(found, id => !Denied(denylist, id) && !HasId(app, id))
  {
    ghost var keep := id => !Denied(denylist, id) && !HasId(app, id);
    portable := [];
    var i := 0;
    while i < |found|
      invariant 0 <= i <= |found|
      invariant portable == Survivors(found[..i], keep)
    {
      var (id, skill) := found[i];
      assert found[..i + 1][..i] == found[..i];
      i := i + 1;
      if Denied(denylist, id) {
        continue;
      }
      if HasId(app, id) {
        continue;
      }
      portable := portable + [SkillEntry(id, PortableClass, skill.meta, FromShelf(skill.dir))];
    }
    assert found[..i] == found;
  }

  /** `build_registry` */
  method BuildRegistry(disk: Disk, refs: seq<SkillRef>, denylist: seq<string>, scan: RegistryScan, resolve: Resolver)
    returns (registry: SkillRegistry)
    ensures registry.app == AppEntries(refs, |refs|, resolve)
    ensures !scan.enabled ==> registry.portable == []
    ensures scan.enabled ==>
              Shows(registry.portable, Merged(disk, scan.userRoot, scan.projectRoot),
                    id => !Denied(denylist, id) && !HasId(registry.app, id))
    ensures forall e, i :: e in registry.portable && 0 <= i < |denylist| ==> Trim(denylist[i]) != e.id
  {
    var app := AssignApps(refs, resolve);
    var portable := [];
    if scan.enabled {
      var found := FindPortable(disk, Trim(scan.userRoot), scan.projectRoot);
      portable := AdmitPortable(found, denylist, app);
      SurvivorsShow(found, id => !Denied(denylist, id) && !HasId(app, id));
      assert forall e :: e in portable ==> !Denied(denylist, e.id);
    }
    registry := SkillRegistry(app, portable);
  }

  // ---------------------------------------------------------------- what a registry holds

  /** The last entry with that name to be listed. */
  predicate LastListed(entries: seq<DirEntry>, id: string, i: nat) {
    && i < |entries| && Listed(entries[i]) && entries[i].name == id
    && forall j :: i < j < |entries| && Listed(entries[j]) ==> entries[j].name != id
  }

  /** A shelf holds a skill under an id exactly if an entry of that name is listed; the last one counts. */
  lemma {:induction false} ShelfHolds(entries: seq<DirEntry>, id: string)
    ensures id in ShelfMap(entries) <==> exists i: nat :: LastListed(entries, id, i)
    ensures forall i: nat :: LastListed(entries, id, i) ==> ShelfMap(entries)[id] == PortableOf(entries[i])
  {
    if entries == [] {
    } else {
      var n := |entries| - 1;
      ShelfHolds(entries[..n], id);
      if Listed(entries[n]) && entries[n].name == id {
        assert LastListed(entries, id, n);
      } else {
        forall i: nat
          ensures LastListed(entries, id, i) <==> LastListed(entries[..n], id, i)
        {
          LastListedInit(entries, id, i);
        }
      }
    }
  }

  lemma LastListedInit(entries: seq<DirEntry>, id: string, i: nat)
    requires entries != [] && !(Listed(entries[|entries| - 1]) && entries[|entries| - 1].name == id)
    ensures LastListed(entries, id, i) <==> LastListed(entries[..|entries| - 1], id, i)
  {
    var init := entries[..|entries| - 1];
    if LastListed(entries, id, i) {
      assert forall j :: 0 <= j < |init| ==> init[j] == entries[j];
    }
  }

  /** `SkillRegistry::get` */
  function Get(entries: seq<SkillEntry>, id: string): Option<SkillEntry> {
    if entries == [] then None else if entries[0].id == id then Some(entries[0]) else Get(entries[1..], id)
  }

  /** Under distinct ids, what is got under an id is exactly the entry with that id. */
  lemma {:induction false} GetIsMembership(entries: seq<SkillEntry>, id: string, e: SkillEntry)
    requires DistinctIds(entries)
    ensures Get(entries, id) == Some(e) <==> e in entries && e.id == id
  {
    if entries == [] {
    } else {
      assert entries == [entries[0]] + entries[1..];
      GetIsMembership(entries[1..], id, e);
    }
  }

  /** App and portable entries together have distinct ids; the prefix tells them apart. */
  lemma RegistryIdsDistinct(refs: seq<SkillRef>, resolve: Resolver, m: map<string, Portable>,
                            portable: seq<SkillEntry>, keep: string -> bool)
    requires forall id :: id in m ==> m[id].id == id && !StartsWith(id, APP_SKILL_PREFIX)
    requires Shows(portable, m, keep)
    ensures DistinctIds(AppEntries(refs, |refs|, resolve) + portable)
    ensures forall e :: e in AppEntries(refs, |refs|, resolve) ==> StartsWith(e.id, APP_SKILL_PREFIX)
    ensures forall e :: e in portable ==> !StartsWith(e.id, APP_SKILL_PREFIX)
  {
    AppIdsDistinct(refs, |refs|, resolve);
    forall i, j | 0 <= i < j < |portable|
      ensures portable[i].id != portable[j].id
    {
      LessIrreflexive(portable[i].id);
    }
  }

  /** Skipping the ids of app skills changes nothing: no shelf offers such an id. */
  lemma AppIdsAreNeverOnAShelf(refs: seq<SkillRef>, resolve: Resolver, m: map<string, Portable>,
                               portable: seq<SkillEntry>, denylist: seq<string>)
    requires forall id :: id in m ==> m[id].id == id && !StartsWith(id, APP_SKILL_PREFIX)
    ensures var app := AppEntries(refs, |refs|, resolve);
            Shows(portable, m, id => !Denied(denylist, id) && !HasId(app, id)) <==> Shows(portable, m, id => !Denied(denylist, id))
  {
    var app := AppEntries(refs, |refs|, resolve);
    AppIdsDistinct(refs, |refs|, resolve);
    assert forall id :: id in m ==> !HasId(app, id);
    ShowsAlike(portable, m, id => !Denied(denylist, id) && !HasId(app, id), id => !Denied(denylist, id));
  }

  lemma ShowsAlike(entries: seq<SkillEntry>, m: map<string, Portable>, keep: string -> bool, also: string -> bool)
    requires forall id :: id in m ==> keep(id) == also(id)
    ensures Shows(entries, m, keep) <==> Shows(entries, m, also)
  {
  }

  /** The order and the map leave no choice. */
  lemma {:induction false} ShowsUnique(a: seq<SkillEntry>, b: seq<SkillEntry>, m: map<string, Portable>, keep: string -> bool)
    requires Shows(a, m, keep) && Shows(b, m, keep)
    ensures a == b
  {
    if a == [] || b == [] {
      assert b != [] ==> HasId(a, b[0].id);
      assert a != [] ==> HasId(b, a[0].id);
    } else {
      var x, y := a[|a| - 1], b[|b| - 1];
      LastIsGreatest(a, m, keep, y.id);
      LastIsGreatest(b, m, keep, x.id);
      Asymmetric2(x.id, y.id);
      var but: string -> bool := id => keep(id) && id != x.id;
      InitShows(a, m, keep);
      InitShows(b, m, keep);
      ShowsUnique(a[..|a| - 1], b[..|b| - 1], m, but);
      assert a == a[..|a| - 1] + [x] && b == b[..|b| - 1] + [y];
    }
  }

  lemma Asymmetric2(x: string, y: string)
    requires x == y || Less(x, y)
    requires x == y || Less(y, x)
    ensures x == y
  {
    if x != y {
      Asymmetric(x, y);
    }
  }

  lemma LastIsGreatest(a: seq<SkillEntry>, m: map<string, Portable>, keep: string -> bool, id: string)
    requires Shows(a, m, keep) && id in m && keep(id)
    ensures a != [] && (id == a[|a| - 1].id || Less(id, a[|a| - 1].id))
  {
    assert HasId(a, id);
    var i :| 0 <= i < |a| && a[i].id == id;
    assert i < |a| - 1 ==> Less(a[i].id, a[|a| - 1].id);
  }

  lemma InitShows(a: seq<SkillEntry>, m: map<string, Portable>, keep: string -> bool)
    requires Shows(a, m, keep) && a != []
    ensures Shows(a[..|a| - 1], m, id => keep(id) && id != a[|a| - 1].id)
  {
    var init, last := a[..|a| - 1], a[|a| - 1].id;
    forall i | 0 <= i < |init|
      ensures init[i].id != last
    {
      assert Less(a[i].id, a[|a| - 1].id);
      LessIrreflexive(last);
    }
    forall id | id in m && keep(id) && id != last
      ensures HasId(init, id)
    {
      assert HasId(a, id);
      var i :| 0 <= i < |a| && a[i].id == id;
      assert init[i].id == id;
    }
  }

  // ---------------------------------------------------------------- the list of portable skills

  datatype ListedSkill = ListedSkill(id: string, meta: Meta, origin: string, dir: string)

  function GlobalSkill(skill: Portable): (Portable, string) { (skill, "global") }

  function ProjectSkill(skill: Portable): (Portable, string) { (skill, "project") }

  /** The shelves with each skill's origin; here the project's root is trimmed, and a blank one is no project. */
  function MergedList(disk: Disk, userRoot: string, projectRoot: string): map<string, (Portable, string)> {
    Wrapped(ShelfIf(Trim(userRoot) != "", disk, Trim(userRoot)), GlobalSkill) +
    Wrapped(ShelfIf(Trim(projectRoot) != "", disk, ProjectShelf(Trim(projectRoot))), ProjectSkill)
  }

  function RowOf(found: (Portable, string)): ListedSkill {
    ListedSkill(found.0.id, found.0.meta, found.1, found.0.dir)
  }

  /** One row for each skill in `m`, in the order of their ids. */
  ghost predicate Lists(rows: seq<ListedSkill>, m: map<string, (Portable, string)>) {
    && (forall i, j :: 0 <= i < j < |rows| ==> Less(rows[i].id, rows[j].id))
    && (forall i :: 0 <= i < |rows| ==> rows[i].id in m && rows[i] == RowOf(m[rows[i].id]))
    && (forall id :: id in m ==> exists i :: 0 <= i < |rows| && rows[i].id == id)
  }

  /** `into_values`, as rows. */
  function Rows(found: TreeMap<(Portable, string)>): seq<ListedSkill> {
    seq(|found|, i requires 0 <= i < |found| => RowOf(found[i].1))
  }

  lemma RowsList(found: TreeMap<(Portable, string)>)
    requires Ascending(found) && forall id :: id in Contents(found) ==> Contents(found)[id].0.id == id
    ensures Lists(Rows(found), Contents(found))
  {
    ContentsAre(found);
    forall i | 0 <= i < |found|
      ensures Rows(found)[i].id == found[i].0 && Rows(found)[i] == RowOf(Contents(found)[found[i].0])
    {
      assert found[i].0 in Contents(found);
    }
    forall id | id in Contents(found)
      ensures exists i :: 0 <= i < |Rows(found)| && Rows(found)[i].id == id
    {
      var i :| 0 <= i < |found| && found[i].0 == id;
      assert Rows(found)[i].id == id;
    }
  }

  method FindListed(disk: Disk, user: string, project: string) returns (found: TreeMap<(Portable, string)>)
    ensures Ascending(found)
    ensures Contents(found) == Wrapped(ShelfIf(user != "", disk, user), GlobalSkill) +
                               Wrapped(ShelfIf(project != "", disk, ProjectShelf(project)), ProjectSkill)
  {
    found := [];
    if user != "" {
      found := EnterShelf(found, disk, user, GlobalSkill);
    }
    assert Contents(found) == Wrapped(ShelfIf(user != "", disk, user), GlobalSkill);
    if project != "" {
      found := EnterShelf(found, disk, ProjectShelf(project), ProjectSkill);
    }
  }

  /** `skill_portable_list` */
  method SkillPortableList(disk: Disk, userRoot: string, projectRoot: string) returns (rows: seq<ListedSkill>)
    ensures Lists(rows, MergedList(disk, userRoot, projectRoot))
  {
    var found := FindListed(disk, Trim(userRoot), Trim(projectRoot));
    RowsList(found);
    rows := Rows(found);
  }

  /** The row, as an entry of the registry. */
  function EntryOf(row: ListedSkill): SkillEntry {
    SkillEntry(row.id, PortableClass, row.meta, FromShelf(row.dir))
  }

  /** The list's rows are the registry's portable entries. */
  predicate Agree(entries: seq<SkillEntry>, rows: seq<ListedSkill>) {
    && |entries| == |rows|
    && forall i :: 0 <= i < |entries| ==>
         entries[i] == EntryOf(rows[i])
  }

  lemma RowsShow(rows: seq<ListedSkill>, entries: seq<SkillEntry>, m: map<string, Portable>,
                 tagged: map<string, (Portable, string)>, keep: string -> bool)
    requires forall id :: id in m ==> m[id].id == id && keep(id)
    requires m.Keys == tagged.Keys && forall id :: id in m ==> tagged[id].0 == m[id]
    requires |entries| == |rows| && forall i :: 0 <= i < |rows| ==> entries[i] == EntryOf(rows[i])
    requires Lists(rows, tagged)
    ensures Shows(entries, m, keep)
  {
    forall i | 0 <= i < |entries|
      ensures entries[i].id in m && entries[i] == PortableEntry(m[entries[i].id])
    {
      assert rows[i].id in tagged.Keys;
    }
    forall id | id in m && keep(id)
      ensures HasId(entries, id)
    {
      assert id in tagged.Keys;
      var i :| 0 <= i < |rows| && rows[i].id == id;
      assert entries[i].id == id;
    }
  }

  lemma ListAgrees(entries: seq<SkillEntry>, rows: seq<ListedSkill>,
                   m: map<string, Portable>, tagged: map<string, (Portable, string)>, keep: string -> bool)
    requires forall id :: id in m ==> m[id].id == id && keep(id)
    requires m.Keys == tagged.Keys && forall id :: id in m ==> tagged[id].0 == m[id]
    requires Shows(entries, m, keep) && Lists(rows, tagged)
    ensures Agree(entries, rows)
  {
    var same := seq(|rows|, i requires 0 <= i < |rows| => EntryOf(rows[i]));
    RowsShow(rows, same, m, tagged, keep);
    ShowsUnique(entries, same, m, keep);
  }

  ghost predicate Agreeing(m: map<string, Portable>, tagged: map<string, (Portable, string)>) {
    forall entries, rows :: Shows(entries, m, id => true) && Lists(rows, tagged) ==> Agree(entries, rows)
  }

  /** Nothing assigned, nothing denied: registry and list agree, whatever is on the disk. */
  ghost predicate AgreesOnEveryDisk(userRoot: string, projectRoot: string) {
    forall disk: Disk :: Agreeing(Merged(disk, userRoot, projectRoot), MergedList(disk, userRoot, projectRoot))
  }

  function OnlyAt(path: string): Disk {
    p => if p == path then [DirEntry("a", "a", true, Some(Meta("a", "", "")))] else []
  }

  const LONE := Portable("a", "a", Meta("a", "", ""))

  lemma ShelfOnlyAt(path: string, p: string)
    ensures ShelfMap(OnlyAt(path)(p)) == if p == path then map["a" := LONE] else map[]
  {
    if p == path {
      var entries := OnlyAt(path)(p);
      assert "a"[..1][0] == 'a' && entries[..0] == [];
      assert Listed(entries[0]);
      assert Trim("a") != "" by {
        LeadUnique("a", 0);
        StopUnique("a", 1);
      }
    }
  }

  lemma ShelvesDiffer(root: string)
    requires Trim(root) != root && Trim(root) != ""
    ensures ProjectShelf(Trim(root)) != ProjectShelf(root)
  {
    var t := TrimStart(root);
    assert |Trim(root)| <= |root|;
    assert |Trim(root)| == |root| ==> t == root && Trim(root) == root;
  }

  lemma NoRow(m: map<string, Portable>, tagged: map<string, (Portable, string)>)
    requires m == map["a" := LONE] && tagged == map[]
    ensures !Agreeing(m, tagged)
  {
    var entries := [PortableEntry(LONE)];
    assert entries[0].id == "a";
    assert HasId(entries, "a");
    assert Shows(entries, m, id => true) && Lists([], tagged) && !Agree(entries, []);
  }

  lemma NoEntry(m: map<string, Portable>, tagged: map<string, (Portable, string)>, origin: string)
    requires m == map[] && tagged == map["a" := (LONE, origin)]
    ensures !Agreeing(m, tagged)
  {
    var rows := [RowOf((LONE, origin))];
    assert rows[0].id == "a";
    assert Shows([], m, id => true) && Lists(rows, tagged) && !Agree([], rows);
  }

  lemma AgreeingMaps(m: map<string, Portable>, tagged: map<string, (Portable, string)>)
    requires forall id :: id in m ==> m[id].id == id
    requires m.Keys == tagged.Keys && forall id :: id in m ==> tagged[id].0 == m[id]
    ensures Agreeing(m, tagged)
  {
    forall entries, rows | Shows(entries, m, id => true) && Lists(rows, tagged)
      ensures Agree(entries, rows)
    {
      ListAgrees(entries, rows, m, tagged, id => true);
    }
  }

  /** The tagged shelves have the keys and the skills of the plain ones. */
  lemma TaggedAlike(user: map<string, Portable>, project: map<string, Portable>)
    ensures var m, tagged := user + project, Wrapped(user, GlobalSkill) + Wrapped(project, ProjectSkill);
            m.Keys == tagged.Keys && forall id :: id in m ==> tagged[id].0 == m[id]
  {
  }

  lemma AgreeWhere(userRoot: string, projectRoot: string)
    requires || (projectRoot != "" && Trim(projectRoot) == projectRoot)
             || (Trim(projectRoot) == "" && Trim(userRoot) == ProjectShelf(projectRoot))
    ensures AgreesOnEveryDisk(userRoot, projectRoot)
  {
    forall disk: Disk
      ensures Agreeing(Merged(disk, userRoot, projectRoot), MergedList(disk, userRoot, projectRoot))
    {
      var user, project := ShelfIf(Trim(userRoot) != "", disk, Trim(userRoot)), ShelfMap(disk(ProjectShelf(projectRoot)));
      var m, tagged := Merged(disk, userRoot, projectRoot), MergedList(disk, userRoot, projectRoot);
      if Trim(projectRoot) == "" {
        TaggedAlike(user, map[]);
        assert m == user;
      } else {
        TaggedAlike(user, project);
      }
      AgreeingMaps(m, tagged);
    }
  }

  lemma LoneMerged(userRoot: string, projectRoot: string, at: string)
    ensures Merged(OnlyAt(at), userRoot, projectRoot) ==
              if at == ProjectShelf(projectRoot) || (Trim(userRoot) != "" && at == Trim(userRoot)) then map["a" := LONE] else map[]
  {
    ShelfOnlyAt(at, Trim(userRoot));
    ShelfOnlyAt(at, ProjectShelf(projectRoot));
  }

  lemma LoneListed(userRoot: string, projectRoot: string, at: string)
    ensures MergedList(OnlyAt(at), userRoot, projectRoot) ==
              if Trim(projectRoot) != "" && at == ProjectShelf(Trim(projectRoot)) then map["a" := (LONE, "project")]
              else if Trim(userRoot) != "" && at == Trim(userRoot) then map["a" := (LONE, "global")] else map[]
  {
    ShelfOnlyAt(at, Trim(userRoot));
    ShelfOnlyAt(at, ProjectShelf(Trim(projectRoot)));
  }

  /** With different shelves, a lone skill on one that is not the user's shows the difference. */
  lemma DisagreeElsewhere(userRoot: string, projectRoot: string)
    requires var shelf, trimmed := ProjectShelf(projectRoot), ProjectShelf(Trim(projectRoot));
             if Trim(projectRoot) == "" then Trim(userRoot) != shelf else shelf != trimmed
    ensures !AgreesOnEveryDisk(userRoot, projectRoot)
  {
    var shelf := ProjectShelf(projectRoot);
    var at := if shelf != Trim(userRoot) then shelf else ProjectShelf(Trim(projectRoot));
    LoneMerged(userRoot, projectRoot, at);
    LoneListed(userRoot, projectRoot, at);
    var m, tagged := Merged(OnlyAt(at), userRoot, projectRoot), MergedList(OnlyAt(at), userRoot, projectRoot);
    if shelf != Trim(userRoot) {
      NoRow(m, tagged);
    } else {
      NoEntry(m, tagged, "project");
    }
  }

  /**
   * The two agree on every disk exactly for a project root that trimming leaves alone and that is not
   * empty; a blank root only does where the user's shelf is the project's.
   */
  lemma AgreementExactly(userRoot: string, projectRoot: string)
    ensures AgreesOnEveryDisk(userRoot, projectRoot) <==>
              || (projectRoot != "" && Trim(projectRoot) == projectRoot)
              || (Trim(projectRoot) == "" && Trim(userRoot) == ProjectShelf(projectRoot))
  {
    if (projectRoot != "" && Trim(projectRoot) == projectRoot) || (Trim(projectRoot) == "" && Trim(userRoot) == ProjectShelf(projectRoot)) {
      AgreeWhere(userRoot, projectRoot);
    } else {
      if Trim(projectRoot) != "" {
        ShelvesDiffer(projectRoot);
      }
      DisagreeElsewhere(userRoot, projectRoot);
    }
  }
}
