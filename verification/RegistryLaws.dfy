/** What a registry holds, told from the references, the shelves' directories and the denylist themselves. */
module RegistryLaws {
  import opened Wrappers
  import opened Text
  import opened Registry

  // ---------------------------------------------------------------- shelves

  /** The id is an app skill's. */
  predicate HasAppPrefix(id: string) {
    |id| >= 4 && id[..4] == "kim-"
  }

  /** A directory of that name with a readable skill in it. */
  predicate HoldsSkill(e: DirEntry, id: string) {
    e.isDir && e.name == id && e.doc.Some?
  }

  /** Entry `i` is the last skill under that name, which is neither hidden nor an app skill's. */
  predicate OnShelf(entries: seq<DirEntry>, id: string, i: nat) {
    && i < |entries| && HoldsSkill(entries[i], id)
    && (id == "" || id[0] != '.') && !HasAppPrefix(id)
    && forall j :: i < j < |entries| ==> !HoldsSkill(entries[j], id)
  }

  /** The skill as it was found; a blank name is replaced by the directory's. */
  predicate TellsSkill(skill: Portable, e: DirEntry) {
    && skill.id == e.name && skill.dir == e.path && e.doc.Some?
    && skill.meta.description == e.doc.value.description && skill.meta.version == e.doc.value.version
    && (Blank(e.doc.value.name) ==> skill.meta.name == e.name)
    && (!Blank(e.doc.value.name) ==> skill.meta.name == e.doc.value.name)
  }

  lemma ListedExactly(e: DirEntry)
    ensures Listed(e) <==> HoldsSkill(e, e.name) && (e.name == "" || e.name[0] != '.') && !HasAppPrefix(e.name)
    ensures Listed(e) ==> TellsSkill(PortableOf(e), e)
  {
    if e.name != "" {
      assert e.name[..1] == [e.name[0]];
    }
    if e.doc.Some? {
      TrimEmpty(e.doc.value.name);
    }
  }

  lemma OnShelfIsLastListed(entries: seq<DirEntry>, id: string, i: nat)
    ensures OnShelf(entries, id, i) <==> LastListed(entries, id, i)
  {
    forall j | 0 <= j < |entries|
      ensures Listed(entries[j]) <==> HoldsSkill(entries[j], entries[j].name)
                                      && (entries[j].name == "" || entries[j].name[0] != '.') && !HasAppPrefix(entries[j].name)
    {
      ListedExactly(entries[j]);
    }
  }

  lemma ShelfExactly(entries: seq<DirEntry>, id: string)
    ensures id in ShelfMap(entries) <==> exists i: nat :: OnShelf(entries, id, i)
    ensures forall i: nat :: OnShelf(entries, id, i) ==> TellsSkill(ShelfMap(entries)[id], entries[i])
  {
    ShelfHolds(entries, id);
    forall i: nat
      ensures OnShelf(entries, id, i) <==> LastListed(entries, id, i)
    {
      OnShelfIsLastListed(entries, id, i);
    }
    forall i: nat | OnShelf(entries, id, i)
      ensures TellsSkill(ShelfMap(entries)[id], entries[i])
    {
      ListedExactly(entries[i]);
    }
  }

  /** What is in the directories of the two shelves; a blank root is no user shelf. */
  function UserEntries(disk: Disk, userRoot: string): seq<DirEntry> {
    if Blank(userRoot) then [] else disk(Trim(userRoot))
  }

  function ProjectEntries(disk: Disk, projectRoot: string): seq<DirEntry> {
    disk(if projectRoot == "" then ".agents/skills" else projectRoot + "/.agents/skills")
  }

  ghost predicate Shelved(entries: seq<DirEntry>, id: string) {
    exists i: nat :: OnShelf(entries, id, i)
  }

  predicate Banned(denylist: seq<string>, id: string) {
    exists i :: 0 <= i < |denylist| && Trim(denylist[i]) == id
  }

  /** The entry tells that skill of the shelf. */
  ghost predicate TellsEntry(e: SkillEntry, entries: seq<DirEntry>) {
    e.class_ == PortableClass && e.source.FromShelf? &&
    forall i: nat :: OnShelf(entries, e.id, i) ==> TellsSkill(Portable(e.id, e.source.dir, e.meta), entries[i])
  }

  lemma MergedExactly(disk: Disk, userRoot: string, projectRoot: string, id: string)
    ensures var m, user, project := Merged(disk, userRoot, projectRoot), UserEntries(disk, userRoot), ProjectEntries(disk, projectRoot);
            && (id in m <==> Shelved(user, id) || Shelved(project, id))
            && (id in m ==> TellsEntry(PortableEntry(m[id]), if Shelved(project, id) then project else user))
  {
    TrimEmpty(userRoot);
    ShelfExactly(UserEntries(disk, userRoot), id);
    ShelfExactly(ProjectEntries(disk, projectRoot), id);
  }

  /**
   * The portable skills of a registry are those of both shelves whose id no item of the denylist names, blanks
   * around it apart; each is told as it was found, on the project's shelf if it is there.
   */
  lemma PortableExactly(disk: Disk, refs: seq<SkillRef>, resolve: Resolver, denylist: seq<string>, scan: RegistryScan,
                        portable: seq<SkillEntry>, id: string)
    requires var app := AppEntries(refs, |refs|, resolve);
             Shows(portable, Merged(disk, scan.userRoot, scan.projectRoot), id => !Denied(denylist, id) && !HasId(app, id))
    ensures var user, project := UserEntries(disk, scan.userRoot), ProjectEntries(disk, scan.projectRoot);
            && (HasId(portable, id) <==> (Shelved(user, id) || Shelved(project, id)) && !Banned(denylist, id))
            && forall e :: e in portable && e.id == id ==> TellsEntry(e, if Shelved(project, id) then project else user)
  {
    var m := Merged(disk, scan.userRoot, scan.projectRoot);
    AppIdsAreNeverOnAShelf(refs, resolve, m, portable, denylist);
    MergedExactly(disk, scan.userRoot, scan.projectRoot, id);
    assert Denied(denylist, id) <==> Banned(denylist, id);
    ShownExactly(portable, m, id => !Denied(denylist, id), id);
  }

  lemma ShownExactly(entries: seq<SkillEntry>, m: map<string, Portable>, keep: string -> bool, id: string)
    requires Shows(entries, m, keep)
    ensures HasId(entries, id) <==> id in m && keep(id)
    ensures forall e :: e in entries && e.id == id ==> id in m && e == PortableEntry(m[id])
  {
  }

  // ---------------------------------------------------------------- the list

  /** The list's project directory: its root is trimmed, and a blank one is no project. */
  function ListedProject(disk: Disk, projectRoot: string): seq<DirEntry> {
    if Blank(projectRoot) then [] else disk(Trim(projectRoot) + "/.agents/skills")
  }

  /** The row tells that skill of the shelf, and which shelf it is. */
  ghost predicate TellsRow(row: ListedSkill, entries: seq<DirEntry>, origin: string) {
    row.origin == origin && forall i: nat :: OnShelf(entries, row.id, i) ==> TellsSkill(Portable(row.id, row.dir, row.meta), entries[i])
  }

  lemma MergedListExactly(disk: Disk, userRoot: string, projectRoot: string, id: string)
    ensures var m, user, project := MergedList(disk, userRoot, projectRoot), UserEntries(disk, userRoot), ListedProject(disk, projectRoot);
            && (id in m <==> Shelved(user, id) || Shelved(project, id))
            && (id in m ==> m[id].0.id == id
                            && if Shelved(project, id) then TellsRow(RowOf(m[id]), project, "project") else TellsRow(RowOf(m[id]), user, "global"))
  {
    TrimEmpty(userRoot);
    TrimEmpty(projectRoot);
    ShelfExactly(UserEntries(disk, userRoot), id);
    ShelfExactly(ListedProject(disk, projectRoot), id);
  }

  /** The rows of the list are the skills of both shelves, the project's in place of the user's of the same id,
      each told as it was found and with where it was found. */
  lemma RowsExactly(disk: Disk, userRoot: string, projectRoot: string, rows: seq<ListedSkill>, id: string)
    requires Lists(rows, MergedList(disk, userRoot, projectRoot))
    ensures var user, project := UserEntries(disk, userRoot), ListedProject(disk, projectRoot);
            && ((exists i :: 0 <= i < |rows| && rows[i].id == id) <==> Shelved(user, id) || Shelved(project, id))
            && forall row :: row in rows && row.id == id ==>
                 if Shelved(project, id) then TellsRow(row, project, "project") else TellsRow(row, user, "global")
  {
    MergedListExactly(disk, userRoot, projectRoot, id);
  }

  // ---------------------------------------------------------------- app skills

  /** Reference `i` is enabled, of the app class, with the app prefix, and there is a package for it. */
  predicate Provided(refs: seq<SkillRef>, resolve: Resolver, i: nat)
    requires i < |refs|
  {
    refs[i].enabled && refs[i].class_ == AppClass && HasAppPrefix(refs[i].id) && resolve(refs[i].id, refs[i].version).Some?
  }

  /** It is the first of its id. */
  predicate FirstProvided(refs: seq<SkillRef>, resolve: Resolver, i: nat)
    requires i < |refs|
  {
    Provided(refs, resolve, i) && forall j :: 0 <= j < i && Provided(refs, resolve, j) ==> refs[j].id != refs[i].id
  }

  /** The entry tells the reference's package, and the version asked for as its pin. */
  predicate TellsPackage(e: SkillEntry, ref: SkillRef, package: Package) {
    && e.id == ref.id && e.class_ == AppClass && e.meta == package.meta
    && e.source == FromApp(package.origin, Trim(ref.version), package.version)
  }

  lemma AssignedExactly(refs: seq<SkillRef>, resolve: Resolver, i: nat)
    requires i < |refs|
    ensures Assigned(refs, i, resolve) <==> FirstProvided(refs, resolve, i)
  {
    assert forall j :: 0 <= j < |refs| ==> (Resolves(refs, j, resolve) <==> Provided(refs, resolve, j));
  }

  /** The entries tell, in order, the references at the positions `at`. */
  ghost predicate EntriesAt(refs: seq<SkillRef>, resolve: Resolver, app: seq<SkillEntry>, at: seq<nat>) {
    && |at| == |app|
    && (forall k :: 0 <= k < |at| ==>
          && at[k] < |refs| && FirstProvided(refs, resolve, at[k])
          && TellsPackage(app[k], refs[at[k]], resolve(refs[at[k]].id, refs[at[k]].version).value))
    && (forall k, l :: 0 <= k < l < |at| ==> at[k] < at[l])
  }

  lemma EntriesSnoc(refs: seq<SkillRef>, resolve: Resolver, app: seq<SkillEntry>, at: seq<nat>, i: nat)
    requires EntriesAt(refs, resolve, app, at) && i < |refs| && FirstProvided(refs, resolve, i)
    requires forall k :: 0 <= k < |at| ==> at[k] < i
    ensures EntriesAt(refs, resolve, app + [AppEntry(refs[i], resolve(refs[i].id, refs[i].version).value)], at + [i])
  {
  }

  /** The app entries tell, in order, exactly the references that are the first of their id to be provided. */
  lemma {:induction false} AppEntriesExactly(refs: seq<SkillRef>, resolve: Resolver, n: nat) returns (at: seq<nat>)
    requires n <= |refs|
    ensures EntriesAt(refs, resolve, AppEntries(refs, n, resolve), at)
    ensures forall i :: 0 <= i < |refs| ==> (i in at <==> i < n && FirstProvided(refs, resolve, i))
  {
    if n == 0 {
      at := [];
    } else {
      at := AppEntriesExactly(refs, resolve, n - 1);
      AssignedExactly(refs, resolve, n - 1);
      if FirstProvided(refs, resolve, n - 1) {
        assert forall k :: 0 <= k < |at| ==> at[k] in at;
        EntriesSnoc(refs, resolve, AppEntries(refs, n - 1, resolve), at, n - 1);
        at := at + [n - 1];
      } else {
        assert AppEntries(refs, n, resolve) == AppEntries(refs, n - 1, resolve);
      }
    }
  }
}
