/** Persistent properties: the list of records, and the protocol that replaces the stored file so that a
    crash at any moment leaves the old list or the new one. */
module PersistentProperties {
  import opened Wrappers

  datatype Record = Record(name: string, value: string)

  // ------------------------------------------------------------------ the list

  function Find(list: seq<Record>, name: string): (i: nat)
    ensures i <= |list| && (i < |list| ==> list[i].name == name)
    ensures forall j :: 0 <= j < i ==> list[j].name != name
  {
    if list == [] || list[0].name == name then 0 else 1 + Find(list[1..], name)
  }

  /** The new list: the first record of that name gets the value, or one is appended. */
  function Update(list: seq<Record>, name: string, value: string): seq<Record> {
    var i := Find(list, name);
    if i < |list| then list[i := Record(name, value)] else list + [Record(name, value)]
  }

  ghost predicate Distinct(list: seq<Record>) {
    forall i, j :: 0 <= i < j < |list| ==> list[i].name != list[j].name
  }

  /** What loading the list leaves in the property store: records are set one after the other. */
  function Loaded(list: seq<Record>): map<string, string> {
    if list == [] then map[]
    else Loaded(list[..|list| - 1])[list[|list| - 1].name := list[|list| - 1].value]
  }

  lemma {:induction false} LoadedReads(list: seq<Record>, name: string)
    requires Distinct(list)
    ensures name in Loaded(list) <==> Find(list, name) < |list|
    ensures name in Loaded(list) ==> Loaded(list)[name] == list[Find(list, name)].value
  {
    if list != [] {
      var n := |list| - 1;
      LoadedReads(list[..n], name);
      var i := Find(list[..n], name);
      assert forall j :: 0 <= j < n ==> list[..n][j] == list[j];
      if i < n {
        assert Find(list, name) == i;
      }
    }
  }

  /** Names stay distinct, the named property is bound to the new value, and every other keeps its own. */
  lemma UpdateRebinds(list: seq<Record>, name: string, value: string)
    requires Distinct(list)
    ensures Distinct(Update(list, name, value))
    ensures Loaded(Update(list, name, value)) == Loaded(list)[name := value]
  {
    var new' := Update(list, name, value);
    var i := Find(list, name);
    assert Distinct(new');
    forall n ensures n in Loaded(new') <==> n in Loaded(list)[name := value] {
      LoadedReads(list, n);
      LoadedReads(new', n);
      FindAfterUpdate(list, name, value, n);
    }
    forall n | n in Loaded(new') ensures Loaded(new')[n] == Loaded(list)[name := value][n] {
      LoadedReads(list, n);
      LoadedReads(new', n);
      FindAfterUpdate(list, name, value, n);
    }
  }

  lemma FindAfterUpdate(list: seq<Record>, name: string, value: string, n: string)
    requires Distinct(list)
    ensures var after := Update(list, name, value);
            && (n == name ==> Find(after, n) < |after| && after[Find(after, n)].value == value)
            && (n != name ==> (Find(after, n) < |after| <==> Find(list, n) < |list|))
            && (n != name && Find(list, n) < |list| ==> after[Find(after, n)] == list[Find(list, n)])
  {
    var after := Update(list, name, value);
    var i, k := Find(list, name), Find(after, n);
    if n == name {
      assert after[i].name == name;
    } else {
      var j := Find(list, n);
      if j < |list| { assert after[j] == list[j]; }
      if k < |after| {
        assert after[k].name == n;
        assert k < |list| && list[k] == after[k];
      }
    }
  }

  // ------------------------------------------------------------------ the disk

  /** What a file holds: a list of records, or bytes that are no such list. */
  datatype Content = Records(list: seq<Record>) | Torn

  /** A file and whether its content has reached the storage. */
  datatype File = File(content: Content, synced: bool)

  /** The files; which one each of the two names stands for now; and for which files the stored name may
      stand on the storage, as long as the directory has not been synced. */
  datatype Disk = Disk(files: map<nat, File>, main: Option<nat>, tmp: Option<nat>, durable: set<Option<nat>>, next: nat)

  ghost predicate WellFormed(d: Disk) {
    && (forall i :: i in d.files ==> i < d.next)
    && (d.main.Some? ==> d.main.value in d.files) && (d.tmp.Some? ==> d.tmp.value in d.files)
    && d.main in d.durable && (d.tmp.Some? ==> d.tmp !in d.durable)
    && (forall f :: f in d.durable && f.Some? ==> f.value in d.files)
  }

  /** What can be found under the stored name after a crash: a content that was synced, or anything. */
  ghost predicate AfterCrash(d: Disk, found: Option<Content>) {
    exists f :: f in d.durable && (
      match f
      case None => found == None
      case Some(i) => i in d.files && found.Some? && (d.files[i].synced ==> found.value == d.files[i].content))
  }

  /** A crash now leaves one of these lists, whole. */
  ghost predicate Safe(d: Disk, lists: set<seq<Record>>) {
    forall f :: f in d.durable ==>
      f.Some? && f.value in d.files && d.files[f.value].synced && d.files[f.value].content.Records? && d.files[f.value].content.list in lists
  }

  lemma SafeAfterCrash(d: Disk, lists: set<seq<Record>>, found: Option<Content>)
    requires Safe(d, lists) && AfterCrash(d, found)
    ensures found.Some? && found.value.Records? && found.value.list in lists
  {
  }

  function UnlinkTmp(d: Disk): Disk { d.(tmp := None) }

  function UnlinkMain(d: Disk): Disk { d.(main := None, durable := d.durable + {None}) }

  /** Open for writing, created or truncated. */
  function OpenTmp(d: Disk): Disk {
    match d.tmp
    case Some(i) => d.(files := d.files[i := File(Torn, false)])
    case None => d.(files := d.files[d.next := File(Torn, false)], tmp := Some(d.next), next := d.next + 1)
  }

  function WriteTmp(d: Disk, content: Content): Disk
    requires d.tmp.Some?
  {
    d.(files := d.files[d.tmp.value := File(content, false)])
  }

  function FsyncTmp(d: Disk, works: bool): Disk
    requires d.tmp.Some? && d.tmp.value in d.files
  {
    d.(files := d.files[d.tmp.value := d.files[d.tmp.value].(synced := works)])
  }

  /** The rename is seen at once, but reaches the storage some time before the directory is synced. */
  function RenameTmp(d: Disk): Disk
    requires d.tmp.Some?
  {
    d.(main := d.tmp, tmp := None, durable := d.durable + {d.tmp})
  }

  function FsyncDir(d: Disk): Disk { d.(durable := {d.main}) }

  // ------------------------------------------------------------------ what each call keeps

  /** The stored name stands for the same file with the same content. */
  ghost predicate SameMain(d: Disk, r: Disk) {
    r.main == d.main && (d.main.Some? ==> d.main.value in d.files && d.main.value in r.files && r.files[d.main.value] == d.files[d.main.value])
  }

  lemma OpenKeeps(d: Disk, lists: set<seq<Record>>)
    requires WellFormed(d)
    ensures var r := OpenTmp(d);
            && WellFormed(r) && r.tmp.Some? && SameMain(d, r) && (Safe(d, lists) ==> Safe(r, lists))
            && r.files[r.tmp.value] == File(Torn, false) && r.durable == d.durable
  {
  }

  lemma WriteKeeps(d: Disk, lists: set<seq<Record>>, content: Content)
    requires WellFormed(d) && d.tmp.Some?
    ensures var r := WriteTmp(d, content);
            WellFormed(r) && r.tmp == d.tmp && SameMain(d, r) && r.files[r.tmp.value].content == content && (Safe(d, lists) ==> Safe(r, lists))
  {
  }

  lemma FsyncKeeps(d: Disk, lists: set<seq<Record>>, works: bool)
    requires WellFormed(d) && d.tmp.Some?
    ensures var r := FsyncTmp(d, works);
            && WellFormed(r) && r.tmp == d.tmp && SameMain(d, r) && (Safe(d, lists) ==> Safe(r, lists))
            && r.files[r.tmp.value] == File(d.files[d.tmp.value].content, works)
  {
  }

  lemma RenameKeeps(d: Disk, lists: set<seq<Record>>, list: seq<Record>)
    requires WellFormed(d) && d.tmp.Some? && d.files[d.tmp.value].content == Records(list)
    ensures var r := RenameTmp(d);
            && WellFormed(r) && r.main == d.tmp && r.files == d.files
            && (d.files[d.tmp.value].synced && Safe(d, lists) ==> Safe(r, lists + {list}))
  {
  }

  lemma FsyncDirKeeps(d: Disk, list: seq<Record>)
    requires WellFormed(d) && d.main.Some? && d.files[d.main.value].content == Records(list)
    ensures WellFormed(FsyncDir(d)) && (d.files[d.main.value].synced ==> Safe(FsyncDir(d), {list}))
  {
  }

  // ------------------------------------------------------------------ one call after the other

  ghost predicate OneCall(d: Disk, r: Disk) {
    || r == UnlinkTmp(d) || r == UnlinkMain(d) || r == OpenTmp(d) || r == FsyncDir(d)
    || (d.tmp.Some? && (r == RenameTmp(d) || exists content :: r == WriteTmp(d, content)))
    || (d.tmp.Some? && d.tmp.value in d.files && (r == FsyncTmp(d, true) || r == FsyncTmp(d, false)))
  }

  /** The disk at the start and after every call up to the end. */
  ghost predicate Traces(d: Disk, trace: seq<Disk>, end: Disk) {
    && |trace| > 0 && trace[0] == d && trace[|trace| - 1] == end
    && (forall k :: 0 < k < |trace| ==> OneCall(trace[k - 1], trace[k]))
  }

  lemma TracesOn(d: Disk, trace: seq<Disk>, mid: Disk, more: seq<Disk>, end: Disk)
    requires Traces(d, trace, mid) && Traces(mid, more, end)
    ensures Traces(d, trace + more[1..], end)
  {
    var all := trace + more[1..];
    forall k | 0 < k < |all| ensures OneCall(all[k - 1], all[k]) {
      if k >= |trace| { assert all[k] == more[k - |trace| + 1] && all[k - 1] == more[k - |trace|]; }
    }
  }

  /** After a crash the storage is what the names stand for; a temporary file may be left over. */
  function Restarted(d: Disk, found: Option<nat>, leftover: Option<nat>): Disk { d.(main := found, tmp := leftover, durable := {found}) }

  lemma RestartedIsSafe(d: Disk, lists: set<seq<Record>>, found: Option<nat>, leftover: Option<nat>)
    requires WellFormed(d) && Safe(d, lists) && found in d.durable
    requires leftover.Some? ==> leftover.value in d.files && leftover != found
    ensures var r := Restarted(d, found, leftover);
            WellFormed(r) && Safe(r, {d.files[found.value].content.list}) && d.files[found.value].content.list in lists
  {
  }

  // ------------------------------------------------------------------ the protocol

  /** How the system calls of one update end. Whether `fsync` works is not checked by the code. */
  datatype Calls = Calls(opens: bool, writes: bool, syncs: bool, renames: bool, opensDir: bool)

  predicate Replaces(c: Calls) { c.opens && c.writes && c.renames }

  /** The lists that a crash may leave after an update that started from `lists`. */
  function Outcome(lists: set<seq<Record>>, list: seq<Record>, c: Calls): set<seq<Record>> {
    if !Replaces(c) then lists else if c.opensDir then {list} else lists + {list}
  }

  ghost predicate Holds(d: Disk, list: seq<Record>) {
    d.main.Some? && d.main.value in d.files && d.files[d.main.value].content == Records(list)
  }

  ghost predicate AllSafe(trace: seq<Disk>, lists: set<seq<Record>>) {
    forall k :: 0 <= k < |trace| ==> Safe(trace[k], lists)
  }

  ghost predicate HoldsList(d: Disk) {
    d.main.Some? && d.main.value in d.files && d.files[d.main.value].content.Records?
  }

  /** The list that the next update starts from. */
  ghost function ListOn(d: Disk, memory: seq<Record>, readable: bool): seq<Record> {
    if readable && HoldsList(d) then d.files[d.main.value].content.list else memory
  }

  class PropertyFile {
    var disk: Disk

    constructor (d: Disk)
      ensures disk == d
    {
      disk := d;
    }

    /** Read the stored list, or fall back to the properties in memory; a leftover temporary file goes, and
        so does a stored file that was read and holds no list, but not one that could not be read. */
    method Load(memory: seq<Record>, readable: bool) returns (list: seq<Record>, ghost trace: seq<Disk>)
      requires WellFormed(disk)
      modifies this
      ensures WellFormed(disk) && disk.tmp == None && Traces(old(disk), trace, disk)
      ensures forall lists :: Safe(old(disk), lists) ==> AllSafe(trace, lists)
      ensures list == ListOn(old(disk), memory, readable)
      ensures disk == if old(disk).main.Some? && readable && !HoldsList(old(disk)) then UnlinkMain(UnlinkTmp(old(disk))) else UnlinkTmp(old(disk))
    {
      list, trace := memory, [disk];
      if disk.tmp.Some? {
        disk := UnlinkTmp(disk);
        trace := trace + [disk];
      }
      if disk.main.Some? && readable {
        var content := disk.files[disk.main.value].content;
        if content.Records? {
          list := content.list;
        } else {
          disk := UnlinkMain(disk);
          trace := trace + [disk];
        }
      }
    }

    /** Replace the stored file; `trace` is the disk before and after every call. Given that `fsync` works, a crash after
        any call leaves what it could have left before or the new list, and after success the new list. The
        temporary file stays only if it could not be written. */
    method WriteFile(list: seq<Record>, c: Calls, ghost lists: set<seq<Record>>) returns (ok: bool, ghost trace: seq<Disk>)
      requires WellFormed(disk)
      modifies this
      ensures WellFormed(disk) && Traces(old(disk), trace, disk)
      ensures ok <==> Replaces(c) && c.opensDir
      ensures if Replaces(c) then Holds(disk, list) else SameMain(old(disk), disk)
      ensures c.syncs && Safe(old(disk), lists) ==> AllSafe(trace, lists + {list}) && Safe(disk, Outcome(lists, list, c))
      ensures c.syncs && ok ==> Safe(disk, {list})
      ensures disk.tmp.Some? <==> if c.opens then !c.writes else old(disk).tmp.Some?
    {
      ok, trace := false, [disk];
      if !c.opens { return; }
      trace := Fill(list, c.writes, lists);
      if !c.writes { return; }
      FsyncKeeps(disk, lists, c.syncs);
      disk := FsyncTmp(disk, c.syncs);
      trace := trace + [disk];
      ghost var sofar, mid, rest := trace, disk, [];
      ok, rest := Publish(list, c, lists);
      TracesOn(old(disk), sofar, mid, rest, disk);
      trace := sofar + rest[1..];
    }

    /** Open the temporary file and write the list, or a part of it. */
    method Fill(list: seq<Record>, writes: bool, ghost lists: set<seq<Record>>) returns (ghost trace: seq<Disk>)
      requires WellFormed(disk)
      modifies this
      ensures WellFormed(disk) && SameMain(old(disk), disk) && disk.tmp.Some? && Traces(old(disk), trace, disk)
      ensures disk.files[disk.tmp.value].content == if writes then Records(list) else Torn
      ensures Safe(old(disk), lists) ==> AllSafe(trace, lists) && Safe(disk, lists)
    {
      trace := [disk];
      OpenKeeps(disk, lists);
      disk := OpenTmp(disk);
      trace := trace + [disk];
      WriteKeeps(disk, lists, if writes then Records(list) else Torn);
      disk := WriteTmp(disk, if writes then Records(list) else Torn);
      trace := trace + [disk];
    }

    /** Rename the written file and sync the directory. */
    method Publish(list: seq<Record>, c: Calls, ghost lists: set<seq<Record>>) returns (ok: bool, ghost trace: seq<Disk>)
      requires WellFormed(disk) && disk.tmp.Some? && disk.files[disk.tmp.value] == File(Records(list), c.syncs) && c.opens && c.writes
      modifies this
      ensures WellFormed(disk) && Traces(old(disk), trace, disk)
      ensures ok <==> Replaces(c) && c.opensDir
      ensures if Replaces(c) then Holds(disk, list) else SameMain(old(disk), disk)
      ensures c.syncs && Safe(old(disk), lists) ==> AllSafe(trace, lists + {list}) && Safe(disk, Outcome(lists, list, c))
      ensures c.syncs && ok ==> Safe(disk, {list})
      ensures disk.tmp == None
    {
      ok, trace := false, [disk];
      if !c.renames {
        disk := UnlinkTmp(disk);
        trace := trace + [disk];
        return;
      }
      RenameKeeps(disk, lists, list);
      disk := RenameTmp(disk);
      trace := trace + [disk];
      if !c.opensDir { return; }
      FsyncDirKeeps(disk, list);
      disk := FsyncDir(disk);
      trace := trace + [disk];
      ok := true;
    }

    /** One update of the stored list, or of the list in memory if there is none that can be read. A crash
        after any call leaves a list that a crash could have left before, or the one with the property rebound. */
    method WritePersistentProperty(
      name: string, value: string, memory: seq<Record>, readable: bool, c: Calls, ghost lists: set<seq<Record>>)
      returns (ok: bool, ghost trace: seq<Disk>)
      requires WellFormed(disk)
      modifies this
      ensures WellFormed(disk) && Traces(old(disk), trace, disk) && (ok <==> Replaces(c) && c.opensDir)
      ensures disk.tmp.Some? <==> c.opens && !c.writes
      ensures var was := old(disk);
              var list := Update(ListOn(was, memory, readable), name, value);
              && (Replaces(c) ==> Holds(disk, list))
              && (!Replaces(c) && HoldsList(was) ==> Holds(disk, was.files[was.main.value].content.list))
              && (c.syncs && ok ==> Safe(disk, {list}))
              && (c.syncs && Safe(was, lists) ==> AllSafe(trace, lists + {list}) && Safe(disk, Outcome(lists, list, c)))
    {
      ghost var was := disk;
      var list, loading := Load(memory, readable);
      ghost var loaded := disk;
      assert Safe(was, lists) ==> was.main in was.durable && Safe(disk, lists);
      var updated := Rebind(list, name, value);
      ok, trace := WriteFile(updated, c, lists);
      TracesOn(was, loading, loaded, trace, disk);
      trace := loading + trace[1..];
    }

    method Rebind(list: seq<Record>, name: string, value: string) returns (updated: seq<Record>)
      ensures updated == Update(list, name, value)
    {
      var i := 0;
      while i < |list| && list[i].name != name
        invariant 0 <= i <= |list|
        invariant forall j :: 0 <= j < i ==> list[j].name != name
      {
        i := i + 1;
      }
      assert i == Find(list, name);
      updated := if i < |list| then list[i := Record(name, value)] else list + [Record(name, value)];
    }

    /** Any number of updates, each with the calls it meets: readers see the current list of the history, and
        a crash afterwards leaves one of its possible lists. */
    method Replay(h: History, memory: seq<Record>)
      requires WellFormed(disk) && Holds(disk, Origin(h)) && Safe(disk, {Origin(h)}) && Synced(h)
      modifies this
      ensures WellFormed(disk) && Holds(disk, Current(h)) && Safe(disk, Possible(h))
      decreases h
    {
      match h
      case Stored(_) =>
      case Updated(prev, name, value, c) =>
        Replay(prev, memory);
        var _, _ := WritePersistentProperty(name, value, memory, true, c, Possible(prev));
    }
  }

  // ------------------------------------------------------------------ histories

  /** Updates one after the other, each with the calls it meets, starting from a stored list. */
  datatype History = Stored(list: seq<Record>) | Updated(prev: History, name: string, value: string, calls: Calls)

  ghost function Origin(h: History): seq<Record> {
    match h case Stored(list) => list case Updated(prev, _, _, _) => Origin(prev)
  }

  ghost predicate Synced(h: History) { h.Updated? ==> h.calls.syncs && Synced(h.prev) }

  /** The list that readers see, and the lists that a crash may leave. */
  ghost function Current(h: History): seq<Record> {
    match h
    case Stored(list) => list
    case Updated(prev, name, value, c) => if Replaces(c) then Update(Current(prev), name, value) else Current(prev)
  }

  ghost function Possible(h: History): set<seq<Record>> {
    match h
    case Stored(list) => {list}
    case Updated(prev, name, value, c) => Outcome(Possible(prev), Update(Current(prev), name, value), c)
  }

  /** Every list that a crash may ever leave has distinct names, and the current one is among them. */
  lemma {:induction false} PossibleDistinct(h: History, list: seq<Record>)
    requires Distinct(Origin(h))
    ensures Current(h) in Possible(h) && Distinct(Current(h))
    ensures list in Possible(h) ==> Distinct(list)
  {
    if h.Updated? {
      PossibleDistinct(h.prev, list);
      UpdateRebinds(Current(h.prev), h.name, h.value);
    }
  }

  /** If every directory sync succeeded, a crash leaves exactly the current list. */
  lemma {:induction false} SyncedDirectoryLeavesCurrent(h: History)
    requires AllDirsSynced(h)
    ensures Possible(h) == {Current(h)}
  {
    if h.Updated? { SyncedDirectoryLeavesCurrent(h.prev); }
  }

  ghost predicate AllDirsSynced(h: History) { h.Updated? ==> h.calls.opensDir && AllDirsSynced(h.prev) }

  /** The condition on `fsync` is needed: if it fails the code goes on, and a crash may leave anything at all. */
  lemma FailedFsyncLosesData(d: Disk, list: seq<Record>)
    requires WellFormed(d) && d.tmp == None
    ensures var r := FsyncDir(RenameTmp(FsyncTmp(WriteTmp(OpenTmp(d), Records(list)), false)));
            AfterCrash(r, Some(Torn)) && !Safe(r, {list})
  {
  }
}
