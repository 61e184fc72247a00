/** Backup and restore of the stored objects that database rows refer to. Writes are stopped while either runs. */
module BackupRestore {
  import opened Records

  type Key = string
  type Bytes = string
  type Version = nat

  // ----- Object stores -----

  /** Files, or a bucket that does not or does keep versions. */
  datatype Kind = Local | Unversioned | Versioned

  /** Every key's contents in the order in which they were written; only a versioned store has more than one. */
  datatype Store = Store(kind: Kind, objects: map<Key, seq<Bytes>>)

  /** The file store takes no notice of versions. */
  function Read(s: Store, key: Key, version: Option<Version>): Option<Bytes> {
    if key !in s.objects || s.objects[key] == [] then None
    else if s.kind == Local || version.None? then Some(s.objects[key][|s.objects[key]| - 1])
    else if s.kind == Versioned && version.value < |s.objects[key]| then Some(s.objects[key][version.value])
    else None
  }

  function Put(s: Store, key: Key, data: Bytes): Store {
    var before := if key in s.objects && s.kind == Versioned then s.objects[key] else [];
    s.(objects := s.objects[key := before + [data]])
  }

  /** The version that a `Put` reports. */
  function VersionOfPut(s: Store, key: Key): Option<Version> {
    if s.kind != Versioned then None else Some(if key in s.objects then |s.objects[key]| else 0)
  }

  // ----- Rows and archives -----

  datatype Table = ActivityRecords | Invoices | TeamInvoices

  datatype Ref = Ref(table: Table, id: nat)

  /** A row that refers to an object. Digests are taken to be collision free, so they stand as the content. */
  datatype Row = Row(ref: Ref, key: Key, version: Option<Version>, expected: Option<Bytes>)

  datatype Identity = Identity(key: Key, version: Option<Version>)

  datatype Item = Item(identity: Identity, digest: Bytes, references: seq<Ref>)

  /** The manifest's objects, and the payload files of the extracted archive. */
  datatype Archive = Archive(items: seq<Item>, payloads: map<Identity, Bytes>)

  function IdentityOf(row: Row): Identity { Identity(row.key, row.version) }

  function Content(s: Store, row: Row): Option<Bytes> { Read(s, row.key, row.version) }

  predicate DistinctRows(rows: seq<Row>) {
    forall i, j :: 0 <= i < j < |rows| ==> rows[i].ref != rows[j].ref
  }

  predicate FirstOf(rows: seq<Row>, i: nat)
    requires i < |rows|
  {
    forall j :: 0 <= j < i ==> IdentityOf(rows[j]) != IdentityOf(rows[i])
  }

  predicate SoundRow(rows: seq<Row>, i: nat, source: Store)
    requires i < |rows|
  {
    && Content(source, rows[i]).Some?
    && (FirstOf(rows, i) && rows[i].expected.Some? ==> rows[i].expected == Content(source, rows[i]))
  }

  /** The backup fails on an object that is missing, or that differs from the digest in the first row that refers
      to it; digests in further rows are not compared. */
  predicate Sound(rows: seq<Row>, source: Store) {
    forall i :: 0 <= i < |rows| ==> SoundRow(rows, i, source)
  }

  /** All references to one object, in the order of the rows. */
  function RefsOf(rows: seq<Row>, identity: Identity): seq<Ref> {
    if rows == [] then []
    else
      var last := rows[|rows| - 1];
      RefsOf(rows[..|rows| - 1], identity) + (if IdentityOf(last) == identity then [last.ref] else [])
  }

  lemma {:induction false} RefsOfHolds(rows: seq<Row>, identity: Identity, ref: Ref)
    ensures ref in RefsOf(rows, identity)
      <==> exists i :: 0 <= i < |rows| && rows[i].ref == ref && IdentityOf(rows[i]) == identity
  {
    if rows != [] {
      var front := rows[..|rows| - 1];
      RefsOfHolds(front, identity, ref);
      assert forall i :: 0 <= i < |front| ==> front[i] == rows[i];
      if ref in RefsOf(front, identity) {
        var i :| 0 <= i < |front| && front[i].ref == ref && IdentityOf(front[i]) == identity;
        assert rows[i].ref == ref;
      }
    }
  }

  predicate HoldsItem(a: Archive, item: Item, rows: seq<Row>, source: Store) {
    && item.identity in a.payloads
    && a.payloads[item.identity] == item.digest
    && Read(source, item.identity.key, item.identity.version) == Some(item.digest)
    && item.references == RefsOf(rows, item.identity)
    && item.references != []
  }

  predicate Listed(items: seq<Item>, identity: Identity) {
    exists k :: 0 <= k < |items| && items[k].identity == identity
  }

  predicate DistinctItems(items: seq<Item>) {
    forall k, l :: 0 <= k < l < |items| ==> items[k].identity != items[l].identity
  }

  /** The archive holds each object once, with its content and with every reference to it. */
  predicate Holds(a: Archive, rows: seq<Row>, source: Store) {
    && DistinctItems(a.items)
    && (forall k :: 0 <= k < |a.items| ==> HoldsItem(a, a.items[k], rows, source))
    && (forall i :: 0 <= i < |rows| ==> Listed(a.items, IdentityOf(rows[i])))
  }

  function AddReference(a: Archive, k: nat, ref: Ref): Archive
    requires k < |a.items|
  {
    a.(items := a.items[k := a.items[k].(references := a.items[k].references + [ref])])
  }

  function AddObject(a: Archive, identity: Identity, data: Bytes, ref: Ref): Archive {
    Archive(a.items + [Item(identity, data, [ref])], a.payloads[identity := data])
  }

  lemma RefsOfOneMore(rows: seq<Row>, row: Row, identity: Identity)
    ensures RefsOf(rows + [row], identity)
      == RefsOf(rows, identity) + (if IdentityOf(row) == identity then [row.ref] else [])
  {
    assert (rows + [row])[..|rows|] == rows;
  }

  lemma ReferenceAdded(a: Archive, rows: seq<Row>, source: Store, row: Row, k: nat)
    requires Holds(a, rows, source) && k < |a.items| && a.items[k].identity == IdentityOf(row)
    ensures Holds(AddReference(a, k, row.ref), rows + [row], source)
  {
    var b := AddReference(a, k, row.ref);
    assert forall l :: 0 <= l < |b.items| ==> b.items[l].identity == a.items[l].identity;
    forall l | 0 <= l < |b.items|
      ensures HoldsItem(b, b.items[l], rows + [row], source)
    {
      assert HoldsItem(a, a.items[l], rows, source);
      RefsOfOneMore(rows, row, a.items[l].identity);
    }
    forall i | 0 <= i < |rows + [row]|
      ensures Listed(b.items, IdentityOf((rows + [row])[i]))
    {
      if i < |rows| {
        var l :| 0 <= l < |a.items| && a.items[l].identity == IdentityOf(rows[i]);
        assert b.items[l].identity == IdentityOf(rows[i]);
      } else {
        assert b.items[k].identity == IdentityOf(row);
      }
    }
  }

  lemma NoReferencesYet(rows: seq<Row>, identity: Identity)
    requires forall i :: 0 <= i < |rows| ==> IdentityOf(rows[i]) != identity
    ensures RefsOf(rows, identity) == []
  {}

  lemma ObjectAdded(a: Archive, rows: seq<Row>, source: Store, row: Row, data: Bytes)
    requires Holds(a, rows, source) && !Listed(a.items, IdentityOf(row)) && Content(source, row) == Some(data)
    ensures Holds(AddObject(a, IdentityOf(row), data, row.ref), rows + [row], source)
  {
    var b := AddObject(a, IdentityOf(row), data, row.ref);
    assert b.items[|a.items|].identity == IdentityOf(row);
    forall l | 0 <= l < |b.items|
      ensures HoldsItem(b, b.items[l], rows + [row], source)
    {
      RefsOfOneMore(rows, row, b.items[l].identity);
      if l < |a.items| {
        assert HoldsItem(a, a.items[l], rows, source);
      } else {
        forall i | 0 <= i < |rows|
          ensures IdentityOf(rows[i]) != IdentityOf(row)
        {
          assert Listed(a.items, IdentityOf(rows[i]));
        }
        NoReferencesYet(rows, IdentityOf(row));
      }
    }
    forall i | 0 <= i < |rows + [row]|
      ensures Listed(b.items, IdentityOf((rows + [row])[i]))
    {
      if i < |rows| {
        var l :| 0 <= l < |a.items| && a.items[l].identity == IdentityOf(rows[i]);
        assert b.items[l].identity == IdentityOf(rows[i]);
      }
    }
  }

  /** The dictionary finds the item of every object seen so far. */
  predicate Indexes(objects: map<Identity, nat>, items: seq<Item>) {
    && (forall k :: 0 <= k < |items| ==> items[k].identity in objects)
    && (forall id :: id in objects ==> objects[id] < |items| && items[objects[id]].identity == id)
  }

  lemma StillIndexes(objects: map<Identity, nat>, a: Archive, k: nat, ref: Ref)
    requires Indexes(objects, a.items) && k < |a.items|
    ensures Indexes(objects, AddReference(a, k, ref).items)
  {
    assert forall l :: 0 <= l < |a.items| ==> AddReference(a, k, ref).items[l].identity == a.items[l].identity;
  }

  lemma IndexesOneMore(objects: map<Identity, nat>, a: Archive, identity: Identity, data: Bytes, ref: Ref)
    requires Indexes(objects, a.items) && identity !in objects
    ensures Indexes(objects[identity := |a.items|], AddObject(a, identity, data, ref).items)
  {}

  lemma IndexedMeansListed(objects: map<Identity, nat>, items: seq<Item>, identity: Identity)
    requires Indexes(objects, items)
    ensures identity in objects <==> Listed(items, identity)
  {}

  lemma SeenBefore(a: Archive, rows: seq<Row>, source: Store, n: nat)
    requires n < |rows| && Holds(a, rows[..n], source)
    ensures FirstOf(rows, n) <==> !Listed(a.items, IdentityOf(rows[n]))
  {
    if Listed(a.items, IdentityOf(rows[n])) {
      var k :| 0 <= k < |a.items| && a.items[k].identity == IdentityOf(rows[n]);
      assert HoldsItem(a, a.items[k], rows[..n], source);
      RefsOfHolds(rows[..n], IdentityOf(rows[n]), a.items[k].references[0]);
    } else {
      forall j | 0 <= j < n
        ensures IdentityOf(rows[j]) != IdentityOf(rows[n])
      {
        assert Listed(a.items, IdentityOf(rows[..n][j]));
      }
    }
  }

  lemma SameObjectReads(a: Archive, rows: seq<Row>, source: Store, k: nat, row: Row)
    requires Holds(a, rows, source) && k < |a.items| && a.items[k].identity == IdentityOf(row)
    ensures Content(source, row).Some?
  {
    assert HoldsItem(a, a.items[k], rows, source);
  }

  lemma AllRowsSound(rows: seq<Row>, source: Store, n: nat)
    requires n <= |rows| && SoundUpTo(rows, source, n)
    ensures n < |rows| && SoundRow(rows, n, source) ==> SoundUpTo(rows, source, n + 1)
    ensures n < |rows| && !SoundRow(rows, n, source) ==> !Sound(rows, source)
    ensures n == |rows| ==> Sound(rows, source)
  {}

  predicate SoundUpTo(rows: seq<Row>, source: Store, n: nat)
    requires n <= |rows|
  {
    forall i :: 0 <= i < n ==> SoundRow(rows, i, source)
  }

  /** One row of the loop: a further reference to an object that is there, or a new object, read and compared. */
  method SnapshotRow(rows: seq<Row>, n: nat, source: Store, a: Archive, objects: map<Identity, nat>)
    returns (ok: bool, a': Archive, objects': map<Identity, nat>)
    requires n < |rows| && Indexes(objects, a.items) && Holds(a, rows[..n], source)
    ensures ok <==> SoundRow(rows, n, source)
    ensures ok ==> Indexes(objects', a'.items) && Holds(a', rows[..n + 1], source)
  {
    ok, a', objects' := true, a, objects;
    var row := rows[n];
    var identity := IdentityOf(row);
    assert rows[..n + 1] == rows[..n] + [row];
    SeenBefore(a, rows, source, n);
    IndexedMeansListed(objects, a.items, identity);
    if identity in objects {
      SameObjectReads(a, rows[..n], source, objects[identity], row);
      ReferenceAdded(a, rows[..n], source, row, objects[identity]);
      StillIndexes(objects, a, objects[identity], row.ref);
      a' := AddReference(a, objects[identity], row.ref);
    } else {
      var data := Read(source, row.key, row.version);
      if data.None? || (row.expected.Some? && data != row.expected) {
        ok := false;
        return;
      }
      ObjectAdded(a, rows[..n], source, row, data.value);
      IndexesOneMore(objects, a, identity, data.value, row.ref);
      objects' := objects[identity := |a.items|];
      a' := AddObject(a, identity, data.value, row.ref);
    }
  }

  /** `_snapshot_objects`. */
  method SnapshotObjects(rows: seq<Row>, source: Store) returns (archive: Option<Archive>)
    ensures archive.Some? <==> Sound(rows, source)
    ensures archive.Some? ==> Holds(archive.value, rows, source)
  {
    var a := Archive([], map[]);
    var objects: map<Identity, nat> := map[];
    for n := 0 to |rows|
      invariant Indexes(objects, a.items)
      invariant Holds(a, rows[..n], source)
      invariant SoundUpTo(rows, source, n)
    {
      var ok;
      ok, a, objects := SnapshotRow(rows, n, source, a, objects);
      AllRowsSound(rows, source, n);
      if !ok {
        return None;
      }
    }
    AllRowsSound(rows, source, |rows|);
    assert rows[..|rows|] == rows;
    archive := Some(a);
  }

  // ----- Restoring -----

  /** What `_load_and_verify_manifest` demands of the extracted archive. */
  predicate Intact(a: Archive) {
    forall k :: 0 <= k < |a.items| ==>
        a.items[k].identity in a.payloads && a.payloads[a.items[k].identity] == a.items[k].digest
  }

  method VerifyPayloads(a: Archive) returns (ok: bool)
    ensures ok <==> Intact(a)
  {
    for k := 0 to |a.items|
      invariant forall l :: 0 <= l < k ==>
        a.items[l].identity in a.payloads && a.payloads[a.items[l].identity] == a.items[l].digest
    {
      if a.items[k].identity !in a.payloads || a.payloads[a.items[k].identity] != a.items[k].digest {
        return false;
      }
    }
    ok := true;
  }

  type Versions = map<Ref, Option<Version>>

  datatype Change = Change(ref: Ref, version: Option<Version>)

  /** The target after the first items have been saved. */
  function StoredUpTo(t: Store, a: Archive, n: nat): (s: Store)
    requires n <= |a.items|
    ensures s.kind == t.kind
  {
    if n == 0 then t else Put(StoredUpTo(t, a, n - 1), a.items[n - 1].identity.key, a.items[n - 1].digest)
  }

  function VersionAt(t: Store, a: Archive, k: nat): Option<Version>
    requires k < |a.items|
  {
    VersionOfPut(StoredUpTo(t, a, k), a.items[k].identity.key)
  }

  function ChangesFor(refs: seq<Ref>, version: Option<Version>): seq<Change> {
    seq(|refs|, i requires 0 <= i < |refs| => Change(refs[i], version))
  }

  function ChangesUpTo(t: Store, a: Archive, n: nat): seq<Change>
    requires n <= |a.items|
  {
    if n == 0 then [] else ChangesUpTo(t, a, n - 1) + ChangesFor(a.items[n - 1].references, VersionAt(t, a, n - 1))
  }

  function Repointed(db: Versions, changes: seq<Change>): Versions {
    if changes == [] then db
    else Repointed(db, changes[..|changes| - 1])[changes[|changes| - 1].ref := changes[|changes| - 1].version]
  }

  /** What becomes of the n-th save: a store may also fail after it has placed the object. */
  datatype Save = Succeeds | Fails | FailsAfterPlacing

  /** How many items are saved before the first save that fails. */
  function SavedFirst(saves: nat -> Save, n: nat): (f: nat)
    ensures f <= n
  {
    if n == 0 then 0
    else
      var f := SavedFirst(saves, n - 1);
      if f < n - 1 || !saves(n - 1).Succeeds? then f else n
  }

  lemma {:induction false} SavedFirstIsFirst(saves: nat -> Save, n: nat)
    ensures forall k: nat :: k < SavedFirst(saves, n) ==> saves(k).Succeeds?
    ensures SavedFirst(saves, n) < n ==> !saves(SavedFirst(saves, n)).Succeeds?
  {
    if n > 0 {
      SavedFirstIsFirst(saves, n - 1);
    }
  }

  /** The target after the saves up to the one that fails, if one does. */
  function StoredBy(t: Store, a: Archive, saves: nat -> Save): Store {
    var f := SavedFirst(saves, |a.items|);
    StoredUpTo(t, a, if f < |a.items| && saves(f).FailsAfterPlacing? then f + 1 else f)
  }

  lemma {:induction false} SavedFirstAt(saves: nat -> Save, f: nat, n: nat)
    requires f < n && !saves(f).Succeeds? && forall k: nat :: k < f ==> saves(k).Succeeds?
    ensures SavedFirst(saves, n) == f
  {
    SavedFirstIsFirst(saves, n);
  }

  /** `_restore_objects`, of an archive that has passed its verification: the objects are saved first, then one
      transaction changes the rows, or none of them if a save failed or a row is missing. */
  method RestoreObjects(a: Archive, target: Store, db: Versions, saves: nat -> Save)
    returns (ok: bool, target': Store, db': Versions)
    requires Intact(a)
    ensures target' == StoredBy(target, a, saves)
    ensures ok <==>
      && (forall k: nat :: k < |a.items| ==> saves(k).Succeeds?)
      && (forall c :: c in ChangesUpTo(target, a, |a.items|) ==> c.ref in db)
    ensures db' == if ok then Repointed(db, ChangesUpTo(target, a, |a.items|)) else db
  {
    target', db' := target, db;
    var changes: seq<Change> := [];
    for n := 0 to |a.items|
      invariant target' == StoredUpTo(target, a, n) && changes == ChangesUpTo(target, a, n)
      invariant forall k: nat :: k < n ==> saves(k).Succeeds?
    {
      var item := a.items[n];
      var version := VersionOfPut(target', item.identity.key);
      if !saves(n).Fails? {
        target' := Put(target', item.identity.key, a.payloads[item.identity]);
      }
      if !saves(n).Succeeds? {
        SavedFirstAt(saves, n, |a.items|);
        return false, target', db;
      }
      var added: seq<Change> := [];
      for i := 0 to |item.references|
        invariant added == ChangesFor(item.references, version)[..i]
      {
        added := added + [Change(item.references[i], version)];
      }
      assert added == ChangesFor(item.references, version);
      changes := changes + added;
    }
    SavedFirstIsFirst(saves, |a.items|);
    for n := 0 to |changes|
      invariant db' == Repointed(db, changes[..n])
      invariant forall i :: 0 <= i < n ==> changes[i].ref in db
    {
      if changes[n].ref !in db {
        assert changes[n] in changes;
        return false, target', db;
      }
      assert changes[..n + 1][..n] == changes[..n];
      db' := db'[changes[n].ref := changes[n].version];
    }
    assert changes[..|changes|] == changes;
    ok := true;
  }

  /** Whatever a restore saves, and wherever it fails, a versioned store goes on to hold everything that could be read
      from it under a version. */
  lemma {:induction false} NothingIsOverwritten(t: Store, a: Archive, n: nat, key: Key, version: Version)
    requires t.kind == Versioned && n <= |a.items| && Read(t, key, Some(version)).Some?
    ensures Read(StoredUpTo(t, a, n), key, Some(version)) == Read(t, key, Some(version))
  {
    if n > 0 {
      NothingIsOverwritten(t, a, n - 1, key, version);
    }
  }

  // ----- What a restored row reads -----

  lemma {:induction false} ChangesComeFromItems(t: Store, a: Archive, n: nat, c: Change)
    requires n <= |a.items|
    ensures c in ChangesUpTo(t, a, n) <==>
      exists k :: 0 <= k < n && c.ref in a.items[k].references && c.version == VersionAt(t, a, k)
  {
    if n > 0 {
      ChangesComeFromItems(t, a, n - 1, c);
      var refs, version := a.items[n - 1].references, VersionAt(t, a, n - 1);
      assert c in ChangesFor(refs, version) <==> c.ref in refs && c.version == version by {
        if c.ref in refs && c.version == version {
          var i :| 0 <= i < |refs| && refs[i] == c.ref;
          assert ChangesFor(refs, version)[i] == c;
        }
      }
    }
  }

  lemma {:induction false} LastChangeCounts(db: Versions, changes: seq<Change>, c: Change)
    requires c in changes && forall other :: other in changes && other.ref == c.ref ==> other == c
    ensures c.ref in Repointed(db, changes) && Repointed(db, changes)[c.ref] == c.version
  {
    var front, last := changes[..|changes| - 1], changes[|changes| - 1];
    assert changes == front + [last];
    if last.ref != c.ref {
      assert c in front && forall other :: other in front ==> other in changes;
      LastChangeCounts(db, front, c);
    }
  }

  /** A reference stands with one object only, because a row has one identity. */
  lemma OneItemPerReference(a: Archive, rows: seq<Row>, source: Store, k: nat, i: nat)
    requires Holds(a, rows, source) && DistinctRows(rows) && k < |a.items| && i < |rows|
    ensures rows[i].ref in a.items[k].references <==> a.items[k].identity == IdentityOf(rows[i])
  {
    assert HoldsItem(a, a.items[k], rows, source);
    RefsOfHolds(rows, a.items[k].identity, rows[i].ref);
    if rows[i].ref in a.items[k].references {
      var j :| 0 <= j < |rows| && rows[j].ref == rows[i].ref && IdentityOf(rows[j]) == a.items[k].identity;
      assert i == j;
    }
  }

  lemma RowIsRepointed(a: Archive, rows: seq<Row>, source: Store, t: Store, db: Versions, i: nat) returns (k: nat)
    requires Holds(a, rows, source) && DistinctRows(rows) && i < |rows|
    ensures k < |a.items| && a.items[k].identity == IdentityOf(rows[i])
    ensures var after := Repointed(db, ChangesUpTo(t, a, |a.items|));
            rows[i].ref in after && after[rows[i].ref] == VersionAt(t, a, k)
  {
    assert Listed(a.items, IdentityOf(rows[i]));
    k :| k < |a.items| && a.items[k].identity == IdentityOf(rows[i]);
    var changes := ChangesUpTo(t, a, |a.items|);
    var c := Change(rows[i].ref, VersionAt(t, a, k));
    OneItemPerReference(a, rows, source, k, i);
    ChangesComeFromItems(t, a, |a.items|, c);
    forall other | other in changes && other.ref == c.ref
      ensures other == c
    {
      ChangesComeFromItems(t, a, |a.items|, other);
      var l :| 0 <= l < |a.items| && other.ref in a.items[l].references && other.version == VersionAt(t, a, l);
      OneItemPerReference(a, rows, source, l, i);
      assert l == k;
    }
    LastChangeCounts(db, changes, c);
  }

  /** A versioned store goes on to hold everything under the version it reported. */
  lemma {:induction false} VersionsStay(t: Store, a: Archive, k: nat, n: nat)
    requires t.kind == Versioned && k < n <= |a.items|
    ensures Read(StoredUpTo(t, a, n), a.items[k].identity.key, VersionAt(t, a, k)) == Some(a.items[k].digest)
  {
    if k < n - 1 {
      VersionsStay(t, a, k, n - 1);
    }
  }

  /** Elsewhere what counts is the last item saved under the key. */
  lemma {:induction false} LastSaveCounts(t: Store, a: Archive, k: nat, n: nat) returns (last: nat)
    requires t.kind != Versioned && k < n <= |a.items|
    ensures last < n && a.items[last].identity.key == a.items[k].identity.key
    ensures Read(StoredUpTo(t, a, n), a.items[k].identity.key, None) == Some(a.items[last].digest)
  {
    if a.items[n - 1].identity.key == a.items[k].identity.key {
      last := n - 1;
    } else {
      last := LastSaveCounts(t, a, k, n - 1);
    }
  }

  function Restored(a: Archive, target: Store): Store { StoredUpTo(target, a, |a.items|) }

  function RestoredDb(a: Archive, target: Store, db: Versions): Versions {
    Repointed(db, ChangesUpTo(target, a, |a.items|))
  }

  /** The row, as restored, reads what it referred to when the backup was taken. */
  predicate Resolves(a: Archive, row: Row, source: Store, target: Store, db: Versions) {
    && row.ref in RestoredDb(a, target, db)
    && Read(Restored(a, target), row.key, RestoredDb(a, target, db)[row.ref]) == Content(source, row)
  }

  /** No key stands for two contents, however many versions the source knew. */
  predicate OneContentPerKey(rows: seq<Row>, source: Store) {
    forall i, j :: 0 <= i < |rows| && 0 <= j < |rows| && rows[i].key == rows[j].key ==>
      Content(source, rows[i]) == Content(source, rows[j])
  }

  lemma EachResolves(a: Archive, rows: seq<Row>, source: Store, target: Store, db: Versions, i: nat)
    requires Holds(a, rows, source) && DistinctRows(rows) && i < |rows|
    requires target.kind == Versioned || OneContentPerKey(rows, source)
    ensures Resolves(a, rows[i], source, target, db)
  {
    var k := RowIsRepointed(a, rows, source, target, db, i);
    assert HoldsItem(a, a.items[k], rows, source);
    if target.kind == Versioned {
      VersionsStay(target, a, k, |a.items|);
    } else {
      var last := LastSaveCounts(target, a, k, |a.items|);
      assert HoldsItem(a, a.items[last], rows, source);
      RefsOfHolds(rows, a.items[last].identity, a.items[last].references[0]);
      var j :| 0 <= j < |rows| && IdentityOf(rows[j]) == a.items[last].identity;
      assert Content(source, rows[i]) == Content(source, rows[j]);
    }
  }

  /** After backup and restore every row reads the bytes it referred to, exactly when the target keeps versions or no
      key stands for two contents. */
  lemma RestoreResolvesEveryRow(a: Archive, rows: seq<Row>, source: Store, target: Store, db: Versions)
    requires Holds(a, rows, source) && DistinctRows(rows)
    ensures (forall row :: row in rows ==> Resolves(a, row, source, target, db))
       <==> (target.kind == Versioned || OneContentPerKey(rows, source))
  {
    if target.kind == Versioned || OneContentPerKey(rows, source) {
      forall row | row in rows
        ensures Resolves(a, row, source, target, db)
      {
        var i :| 0 <= i < |rows| && rows[i] == row;
        EachResolves(a, rows, source, target, db, i);
      }
    } else if forall row :: row in rows ==> Resolves(a, row, source, target, db) {
      forall i, j | 0 <= i < |rows| && 0 <= j < |rows| && rows[i].key == rows[j].key
        ensures Content(source, rows[i]) == Content(source, rows[j])
      {
        var k := RowIsRepointed(a, rows, source, target, db, i);
        var l := RowIsRepointed(a, rows, source, target, db, j);
        assert Resolves(a, rows[i], source, target, db) && Resolves(a, rows[j], source, target, db);
      }
    }
  }

  /** Every row reads from the target what it refers to in the source. */
  predicate AllRead(rows: seq<Row>, source: Store, target: Store, db: Versions) {
    forall row :: row in rows ==> row.ref in db && Read(target, row.key, db[row.ref]) == Content(source, row)
  }

  /** Every step of a backup and a restore of an archive that arrives intact. */
  method BackUpAndRestore(rows: seq<Row>, source: Store, target: Store, db: Versions, saves: nat -> Save)
    returns (ok: bool, target': Store, db': Versions)
    requires DistinctRows(rows) && forall row :: row in rows ==> row.ref in db
    ensures ok ==> Sound(rows, source)
    ensures Sound(rows, source) && (forall k :: saves(k).Succeeds?) ==> ok
    ensures ok ==> (AllRead(rows, source, target', db') <==> target.kind == Versioned || OneContentPerKey(rows, source))
    ensures !ok ==> db' == db
    ensures !Sound(rows, source) ==> target' == target
    ensures target.kind == Versioned ==>
      forall key, version :: Read(target, key, Some(version)).Some? ==>
        Read(target', key, Some(version)) == Read(target, key, Some(version))
  {
    var archive := SnapshotObjects(rows, source);
    if archive.None? {
      return false, target, db;
    }
    var a := archive.value;
    assert Intact(a) by {
      forall k | 0 <= k < |a.items|
        ensures a.items[k].identity in a.payloads && a.payloads[a.items[k].identity] == a.items[k].digest
      {
        assert HoldsItem(a, a.items[k], rows, source);
      }
    }
    ok, target', db' := RestoreObjects(a, target, db, saves);
    RowsAreThere(a, rows, source, target, db);
    if ok {
      SavedFirstIsFirst(saves, |a.items|);
      RestoreResolvesEveryRow(a, rows, source, target, db);
      assert AllRead(rows, source, target', db')
        <==> forall row :: row in rows ==> Resolves(a, row, source, target, db);
    }
    if target.kind == Versioned {
      forall key, version | Read(target, key, Some(version)).Some?
        ensures Read(target', key, Some(version)) == Read(target, key, Some(version))
      {
        var f := SavedFirst(saves, |a.items|);
        var n := if f < |a.items| && saves(f).FailsAfterPlacing? then f + 1 else f;
        NothingIsOverwritten(target, a, n, key, version);
      }
    }
  }

  lemma RowsAreThere(a: Archive, rows: seq<Row>, source: Store, target: Store, db: Versions)
    requires Holds(a, rows, source) && forall row :: row in rows ==> row.ref in db
    ensures forall c :: c in ChangesUpTo(target, a, |a.items|) ==> c.ref in db
  {
    forall c | c in ChangesUpTo(target, a, |a.items|)
      ensures c.ref in db
    {
      ChangesComeFromItems(target, a, |a.items|, c);
      var k :| 0 <= k < |a.items| && c.ref in a.items[k].references;
      assert HoldsItem(a, a.items[k], rows, source);
      RefsOfHolds(rows, a.items[k].identity, c.ref);
      var i :| 0 <= i < |rows| && rows[i].ref == c.ref;
      assert rows[i] in rows;
    }
  }

  // ----- What can go wrong -----

  /** Two rows of one object, the second with a digest that is not the object's: the backup does not notice. */
  method AWrongDigestIsBackedUp(key: Key, data: Bytes, other: Bytes)
    returns (rows: seq<Row>, source: Store, archive: Option<Archive>)
    requires data != other
    ensures DistinctRows(rows) && |rows| == 2 && archive.Some?
    ensures rows[1].expected.Some? && rows[1].expected != Content(source, rows[1])
  {
    source := Store(Local, map[key := [data]]);
    rows := [Row(Ref(Invoices, 1), key, None, Some(data)), Row(Ref(Invoices, 2), key, None, Some(other))];
    assert !FirstOf(rows, 1) by {
      assert IdentityOf(rows[0]) == IdentityOf(rows[1]);
    }
    archive := SnapshotObjects(rows, source);
  }

  /** Two versions of one object, restored into a store without versions: backup and restore succeed, and a row reads
      what it does not refer to. */
  method TwoVersionsAreMixedUp(key: Key, data: Bytes, other: Bytes)
    returns (rows: seq<Row>, source: Store, ok: bool, target: Store, db: Versions)
    requires data != other
    ensures DistinctRows(rows) && Sound(rows, source) && ok && !AllRead(rows, source, target, db)
  {
    source := Store(Versioned, map[key := [data, other]]);
    rows := [Row(Ref(Invoices, 1), key, Some(0), Some(data)), Row(Ref(Invoices, 2), key, Some(1), Some(other))];
    assert Content(source, rows[0]) == Some(data) && Content(source, rows[1]) == Some(other);
    assert Sound(rows, source) && !OneContentPerKey(rows, source);
    var before := map[Ref(Invoices, 1) := Some(0), Ref(Invoices, 2) := Some(1)];
    ok, target, db := BackUpAndRestore(rows, source, Store(Unversioned, map[]), before, _ => Succeeds);
  }
}
