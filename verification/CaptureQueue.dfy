/** The agent's durable queue of captures: SQLite rows and encrypted image files that no common transaction covers.
    Every state the disk goes through is kept, because a crash may leave any of them. */
module CaptureQueue {
  import opened Records

  type CaptureId = nat
  type Picture = string

  /** Where an image lives: the sealed file named after its record, or a plain file of an older version. */
  datatype Path = Sealed(id: CaptureId) | Plain(name: string)

  /** What a file holds. Sealing binds the picture to its record. */
  datatype Blob = Seal(owner: CaptureId, picture: Picture) | Raw(plain: Picture)

  datatype Row = Row(image: Path, created: int)

  type Rows = map<CaptureId, Row>

  datatype Disk = Disk(
    rows: Rows,
    images: map<Path, Blob>,
    partials: set<Path>,
    quarantine: map<CaptureId, Blob>,
    envelopes: set<CaptureId>,
    states: set<CaptureId>)

  function Unseal(blob: Blob, id: CaptureId): Option<Picture> {
    if blob.Seal? && blob.owner == id then Some(blob.picture) else None
  }

  // ----- What is true of the disk at every moment -----

  /** Every picture that was ever captured. */
  type Pictures = map<CaptureId, Picture>

  predicate Shows(blob: Blob, id: CaptureId, captured: Pictures) {
    id in captured && (blob == Seal(id, captured[id]) || blob == Raw(captured[id]))
  }

  predicate OwnImages(rows: Rows) {
    && (forall id :: id in rows ==> rows[id].image == Sealed(id) || rows[id].image.Plain?)
    && (forall a, b :: a in rows && b in rows && a != b ==> rows[a].image != rows[b].image)
  }

  /** The record's picture is where its row says, sealed if the row says so, or it has been moved to quarantine. */
  predicate Kept(d: Disk, id: CaptureId, captured: Pictures)
    requires id in d.rows
  {
    var path := d.rows[id].image;
    && id in captured
    && if path in d.images
       then d.images[path] == (if path.Sealed? then Seal(id, captured[id]) else Raw(captured[id]))
       else id in d.quarantine
  }

  predicate Good(d: Disk, captured: Pictures) {
    && OwnImages(d.rows)
    && (forall id :: id in d.rows ==> Kept(d, id, captured))
    && (forall id :: id in d.quarantine ==> Shows(d.quarantine[id], id, captured))
  }

  predicate AllGood(trace: set<Disk>, captured: Pictures) { forall d :: d in trace ==> Good(d, captured) }

  function Paths(rows: Rows): set<Path> { set id | id in rows :: rows[id].image }

  /** No picture on the disk that no row refers to, and no half-written file. */
  predicate Tidy(d: Disk) { d.images.Keys <= Paths(d.rows) && d.partials == {} }

  /** The newest records, at most so many of them. */
  predicate Trimmed(before: Rows, after: Rows, limit: nat) {
    && after.Keys <= before.Keys
    && (forall id :: id in after ==> after[id] == before[id])
    && |after| == Min(|before|, limit)
    && (forall k, g :: k in after && g in before && g !in after ==> before[g].created <= before[k].created)
  }

  lemma RemovingOne(rows: Rows, id: CaptureId)
    requires id in rows
    ensures |rows - {id}| == |rows| - 1
  {
    assert (rows - {id}).Keys == rows.Keys - {id};
    assert |rows.Keys| == |rows| && |(rows - {id}).Keys| == |rows - {id}|;
  }

  lemma RowCounts(rows: Rows, id: CaptureId, row: Row)
    ensures |rows[id := row]| == if id in rows then |rows| else |rows| + 1
  {
    assert |rows.Keys| == |rows| && |rows[id := row].Keys| == |rows[id := row]|;
    assert rows[id := row].Keys == rows.Keys + {id};
  }

  /** The oldest record; which one of several as old is the database's choice. */
  method Oldest(rows: Rows) returns (oldest: CaptureId)
    requires |rows| > 0
    ensures oldest in rows && forall id :: id in rows ==> rows[oldest].created <= rows[id].created
  {
    assert rows.Keys != {};
    oldest :| oldest in rows;
    var rest := rows.Keys - {oldest};
    while rest != {}
      invariant oldest in rows && rest <= rows.Keys
      invariant forall id :: id in rows.Keys - rest ==> rows[oldest].created <= rows[id].created
    {
      var id :| id in rest;
      rest := rest - {id};
      if rows[id].created < rows[oldest].created {
        oldest := id;
      }
    }
  }

  method KeepNewest(rows: Rows, limit: nat) returns (kept: Rows, gone: seq<CaptureId>)
    ensures Trimmed(rows, kept, limit)
    ensures forall id :: id in rows <==> id in kept || id in gone
    ensures forall id :: id in gone ==> id !in kept
    ensures |gone| == |rows| - |kept|
  {
    kept, gone := rows, [];
    while |kept| > limit
      invariant kept.Keys <= rows.Keys && forall id :: id in kept ==> kept[id] == rows[id]
      invariant Min(|rows|, limit) <= |kept|
      invariant forall id :: id in rows <==> id in kept || id in gone
      invariant forall id :: id in gone ==> id !in kept
      invariant forall k, g :: k in kept && g in gone ==> rows[g].created <= rows[k].created
      invariant |gone| == |rows| - |kept|
    {
      var id := Oldest(kept);
      RemovingOne(kept, id);
      kept, gone := kept - {id}, gone + [id];
    }
  }

  lemma RowsWereCaptured(d: Disk, captured: Pictures)
    requires Good(d, captured)
    ensures d.rows.Keys <= captured.Keys
  {
    forall id | id in d.rows
      ensures id in captured
    {
      assert Kept(d, id, captured);
    }
  }

  // ----- Sealing what an older version left plain -----

  predicate WasPlain(d: Disk, id: CaptureId) {
    id in d.rows && d.rows[id].image.Plain? && d.rows[id].image in d.images
  }

  /** The rows of `done` as they are to be committed, given the disk before and now. */
  predicate Resealed(before: Disk, now: Disk, rows: Rows, done: set<CaptureId>, captured: Pictures) {
    && rows.Keys == before.rows.Keys && now.rows == before.rows && now.quarantine == before.quarantine
    && (forall path :: path in before.images ==> path in now.images)
    && (forall path :: path in now.images && path.Plain? ==> path in before.images)
    && (forall id :: id in rows ==>
          if id in done && WasPlain(before, id)
          then rows[id] == before.rows[id].(image := Sealed(id))
               && id in captured && Sealed(id) in now.images && now.images[Sealed(id)] == Seal(id, captured[id])
          else rows[id] == before.rows[id])
  }

  lemma ResealedIsGood(before: Disk, now: Disk, rows: Rows, done: set<CaptureId>, captured: Pictures)
    requires Good(now, captured) && Resealed(before, now, rows, done, captured)
    ensures Good(now.(rows := rows), captured)
  {
    forall id | id in rows
      ensures Kept(now.(rows := rows), id, captured)
    {
      assert Kept(now, id, captured);
    }
  }

  /** What opening the queue makes of the disk that a crash left. */
  predicate Recovered(before: Disk, after: Disk, captured: Pictures) {
    && Tidy(after)
    && after.rows.Keys == before.rows.Keys
    && (forall id :: id in after.rows ==>
          if before.rows[id].image in before.images
          then after.rows[id] == before.rows[id].(image := Sealed(id))
               && id in captured && Sealed(id) in after.images && after.images[Sealed(id)] == Seal(id, captured[id])
          else after.rows[id] == before.rows[id] && id in after.quarantine)
    && after.quarantine == before.quarantine && after.envelopes == before.envelopes && after.states == before.states
  }

  lemma SealedAndClearedIsRecovered(before: Disk, sealed: Disk, after: Disk, legacy: seq<Path>, captured: Pictures)
    requires Good(before, captured) && Tidy(after) && Good(sealed.(rows := after.rows), captured)
    requires Progress(before, sealed, after.rows, after.rows.Keys, legacy, captured)
    requires Spares(after.rows, sealed.images, after.images)
    requires after.quarantine == before.quarantine && after.envelopes == before.envelopes
    requires after.states == before.states
    ensures Recovered(before, after, captured)
  {
    RecoveryIsComplete(before, sealed, after, captured);
  }

  /** The images that rows refer to stay as they are. */
  predicate Spares(rows: Rows, before: map<Path, Blob>, after: map<Path, Blob>) {
    forall path :: path in Paths(rows) && path in before ==> path in after && after[path] == before[path]
  }

  lemma RecoveryIsComplete(before: Disk, sealed: Disk, after: Disk, captured: Pictures)
    requires Good(before, captured) && Tidy(after)
    requires Resealed(before, sealed, after.rows, before.rows.Keys, captured)
    requires Good(sealed.(rows := after.rows), captured)
    requires Spares(after.rows, sealed.images, after.images)
    requires after.quarantine == before.quarantine && after.envelopes == before.envelopes
    requires after.states == before.states
    ensures Recovered(before, after, captured)
  {
    forall id | id in after.rows
      ensures if before.rows[id].image in before.images
              then after.rows[id] == before.rows[id].(image := Sealed(id))
                   && id in captured && Sealed(id) in after.images && after.images[Sealed(id)] == Seal(id, captured[id])
              else after.rows[id] == before.rows[id] && id in after.quarantine
    {
      assert Kept(before, id, captured) && Kept(sealed.(rows := after.rows), id, captured);
      assert after.rows[id].image in Paths(after.rows);
    }
  }

  predicate Progress(before: Disk, now: Disk, rows: Rows, done: set<CaptureId>, legacy: seq<Path>, captured: Pictures) {
    && Resealed(before, now, rows, done, captured)
    && OwnImages(rows)
    && forall path :: path in legacy ==> path.Plain? && path !in Paths(rows)
  }

  lemma ProgressStarts(d: Disk, captured: Pictures)
    requires Good(d, captured)
    ensures Progress(d, d, d.rows, {}, [], captured)
  {}

  lemma ProgressEnds(before: Disk, now: Disk, rows: Rows, done: set<CaptureId>, legacy: seq<Path>, captured: Pictures)
    requires Progress(before, now, rows, done, legacy, captured) && before.rows.Keys <= done <= before.rows.Keys
    ensures Progress(before, now, rows, rows.Keys, legacy, captured)
  {
    assert done == rows.Keys;
  }

  lemma NotPlain(before: Disk, now: Disk, rows: Rows, done: set<CaptureId>, captured: Pictures, id: CaptureId)
    requires Resealed(before, now, rows, done, captured) && id in rows && id !in done && !WasPlain(before, id)
    ensures Resealed(before, now, rows, done + {id}, captured)
  {}

  lemma NowSealed(before: Disk, now: Disk, next: Disk, rows: Rows, done: set<CaptureId>, captured: Pictures,
      id: CaptureId)
    requires Resealed(before, now, rows, done, captured) && id !in done && WasPlain(before, id) && id in captured
    requires next.rows == now.rows && next.quarantine == now.quarantine
    requires next.images == now.images[Sealed(id) := Seal(id, captured[id])]
    ensures Resealed(before, next, rows[id := rows[id].(image := Sealed(id))], done + {id}, captured)
  {}

  lemma PlainPathsForgotten(rows: Rows, id: CaptureId, legacy: seq<Path>)
    requires OwnImages(rows) && id in rows && rows[id].image.Plain?
    requires forall path :: path in legacy ==> path.Plain? && path !in Paths(rows)
    ensures var after := rows[id := rows[id].(image := Sealed(id))];
            forall path :: path in legacy + [rows[id].image] ==> path.Plain? && path !in Paths(after)
  {}

  // ----- What one durable change does to the invariant -----

  lemma OtherPartsDoNotMatter(d: Disk, after: Disk, captured: Pictures)
    requires Good(d, captured)
    requires after.rows == d.rows && after.images == d.images && after.quarantine == d.quarantine
    ensures Good(after, captured)
  {
    forall id | id in after.rows
      ensures Kept(after, id, captured)
    {
      assert Kept(d, id, captured);
    }
  }

  lemma ForgettingImagesIsSafe(d: Disk, path: Path, captured: Pictures)
    requires Good(d, captured) && path !in Paths(d.rows)
    ensures Good(d.(images := d.images - {path}), captured)
  {
    var after := d.(images := d.images - {path});
    forall id | id in after.rows
      ensures Kept(after, id, captured)
    {
      assert Kept(d, id, captured) && d.rows[id].image in Paths(d.rows);
    }
  }

  lemma WritingASealIsSafe(d: Disk, id: CaptureId, captured: Pictures)
    requires Good(d, captured) && id in captured
    ensures Good(d.(images := d.images[Sealed(id) := Seal(id, captured[id])]), captured)
  {
    var after := d.(images := d.images[Sealed(id) := Seal(id, captured[id])]);
    forall other | other in after.rows
      ensures Kept(after, other, captured)
    {
      assert Kept(d, other, captured);
    }
  }

  lemma FewerRowsAreSafe(d: Disk, rows: Rows, captured: Pictures)
    requires Good(d, captured)
    requires rows.Keys <= d.rows.Keys && forall id :: id in rows ==> rows[id] == d.rows[id]
    ensures Good(d.(rows := rows), captured)
  {
    forall id | id in rows
      ensures Kept(d.(rows := rows), id, captured)
    {
      assert Kept(d, id, captured);
    }
  }

  lemma DroppingIsSafe(d: Disk, id: CaptureId, captured: Pictures)
    requires Good(d, captured) && id in d.rows
    ensures Good(d.(rows := d.rows - {id}), captured) && |d.rows - {id}| == |d.rows| - 1
  {
    RemovingOne(d.rows, id);
    FewerRowsAreSafe(d, d.rows - {id}, captured);
  }

  lemma NewRowIsSafe(d: Disk, id: CaptureId, created: int, captured: Pictures)
    requires Good(d, captured) && id in captured && id !in d.rows
    requires Sealed(id) in d.images && d.images[Sealed(id)] == Seal(id, captured[id])
    ensures Good(d.(rows := d.rows[id := Row(Sealed(id), created)]), captured)
  {
    var after := d.(rows := d.rows[id := Row(Sealed(id), created)]);
    forall other | other in after.rows
      ensures Kept(after, other, captured)
    {
      assert other != id ==> Kept(d, other, captured);
    }
  }

  lemma MovingToQuarantineIsSafe(d: Disk, id: CaptureId, captured: Pictures)
    requires Good(d, captured) && id in d.rows && d.rows[id].image in d.images
    ensures var path := d.rows[id].image;
            Good(d.(images := d.images - {path}, quarantine := d.quarantine[id := d.images[path]]), captured)
  {
    var path := d.rows[id].image;
    var after := d.(images := d.images - {path}, quarantine := d.quarantine[id := d.images[path]]);
    assert Kept(d, id, captured);
    forall other | other in after.rows
      ensures Kept(after, other, captured)
    {
      assert Kept(d, other, captured);
    }
  }

  lemma MorePicturesKeepGood(d: Disk, captured: Pictures, id: CaptureId, picture: Picture)
    requires Good(d, captured) && id !in captured
    ensures Good(d, captured[id := picture])
  {
    forall other | other in d.rows
      ensures Kept(d, other, captured[id := picture])
    {
      assert Kept(d, other, captured);
    }
  }

  lemma DroppedPath(rows: Rows, id: CaptureId)
    requires OwnImages(rows) && id in rows
    ensures rows[id].image !in Paths(rows - {id})
    ensures Paths(rows) == Paths(rows - {id}) + {rows[id].image}
  {
    forall path | path in Paths(rows)
      ensures path in Paths(rows - {id}) + {rows[id].image}
    {
      var other :| other in rows && rows[other].image == path;
      assert other != id ==> other in rows - {id};
    }
  }

  lemma AddedPath(rows: Rows, id: CaptureId, row: Row)
    requires id !in rows
    ensures Paths(rows[id := row]) == Paths(rows) + {row.image}
  {
    var after := rows[id := row];
    assert row.image in Paths(after) by {
      assert id in after && after[id].image == row.image;
    }
    forall path | path in Paths(rows)
      ensures path in Paths(after)
    {
      var other :| other in rows && rows[other].image == path;
      assert other in after && after[other].image == path;
    }
  }

  lemma NewestArePaths(before: Disk, after: Disk, gone: seq<CaptureId>)
    requires Tidy(before) && after.partials == before.partials && after.images.Keys <= before.images.Keys
    requires forall id :: id in gone ==> id in before.rows
    requires forall path :: path in Paths(before.rows) ==>
      path in Paths(after.rows) || path in PathsOf(before.rows, gone)
    requires forall path :: path in PathsOf(before.rows, gone) ==> path !in after.images
    ensures Tidy(after)
  {}

  function PathsOf(rows: Rows, gone: seq<CaptureId>): (paths: seq<Path>)
    requires forall id :: id in gone ==> id in rows
  {
    seq(|gone|, i requires 0 <= i < |gone| => rows[gone[i]].image)
  }

  /** The images of the records that go are exactly those that nothing refers to afterwards. */
  lemma GonePaths(rows: Rows, kept: Rows, gone: seq<CaptureId>)
    requires OwnImages(rows)
    requires kept.Keys <= rows.Keys && forall id :: id in kept ==> kept[id] == rows[id]
    requires forall id :: id in rows <==> id in kept || id in gone
    requires forall id :: id in gone ==> id !in kept
    ensures forall path :: path in PathsOf(rows, gone) ==> path !in Paths(kept)
    ensures forall path :: path in Paths(rows) ==> path in Paths(kept) || path in PathsOf(rows, gone)
  {
    forall path | path in Paths(rows)
      ensures path in Paths(kept) || path in PathsOf(rows, gone)
    {
      var id :| id in rows && rows[id].image == path;
      if id in kept {
        assert path == kept[id].image;
      } else {
        var i :| 0 <= i < |gone| && gone[i] == id;
        assert PathsOf(rows, gone)[i] == path;
      }
    }
  }

  lemma OneMoreEnvelope(envelopes: set<CaptureId>, id: CaptureId)
    ensures id in envelopes ==> envelopes + {id} == envelopes
    ensures |envelopes + {id}| == |envelopes| + if id in envelopes then 0 else 1
  {
    if id in envelopes {
      assert envelopes + {id} == envelopes;
    }
  }

  class OfflineQueue {
    const maxItems: nat
    var disk: Disk
    var pending: int
    var pendingStates: int
    var quarantined: int
    /** Which of the coming disk actions fail. */
    var faults: seq<bool>
    ghost var captured: Pictures
    /** Every state the disk went through. */
    ghost var trace: set<Disk>
    /** Since opening: new envelopes whose write raised after its rename, and completed writes of envelopes that were
        there already. */
    ghost var unseen: nat
    ghost var repeated: nat

    ghost predicate Durable()
      reads this`disk, this`captured, this`trace
    {
      Good(disk, captured) && disk in trace && AllGood(trace, captured)
    }

    /** The counts of rows are exact; that of quarantined items misses the unseen envelopes and counts repeated ones
        again. */
    ghost predicate Counted()
      reads this`disk, this`pending, this`pendingStates, this`quarantined, this`unseen, this`repeated
    {
      && pending == |disk.rows| && pendingStates == |disk.states|
      && quarantined + unseen == |disk.envelopes| + repeated
    }

    ghost predicate Valid()
      reads this
    {
      Durable() && Counted()
    }

    /** What stays as it is when only the files, or only the rows, of captures change. */
    twostate predicate OnlyCaptures()
      reads this
    {
      && captured == old(captured) && old(trace) <= trace
      && disk.quarantine == old(disk).quarantine && disk.envelopes == old(disk).envelopes
      && disk.states == old(disk).states
    }

    /** When no disk action fails any more, neither does the method. */
    twostate predicate Smooth(ok: bool)
      reads this
    {
      old(faults) == [] ==> ok && faults == []
    }

    /** The process opens what a run, or a crash, left on the disk. */
    constructor (left: Disk, maxItems: nat, faults: seq<bool>, ghost captured: Pictures)
      requires Good(left, captured)
      ensures Durable() && disk == left && this.maxItems == maxItems && this.captured == captured && trace == {left}
    {
      this.disk, this.maxItems, this.faults, this.captured := left, maxItems, faults, captured;
      this.pending, this.pendingStates, this.quarantined := 0, 0, 0;
      this.trace, this.unseen, this.repeated := {left}, 0, 0;
    }

    method Succeeds() returns (ok: bool)
      modifies this`faults
      ensures ok == (old(faults) == [] || !old(faults)[0])
      ensures faults == if old(faults) == [] then [] else old(faults)[1..]
    {
      ok := true;
      if faults != [] {
        ok := !faults[0];
        faults := faults[1..];
      }
    }

    method Become(d: Disk)
      requires Durable() && Good(d, captured)
      modifies this`disk, this`trace
      ensures Durable() && disk == d && trace == old(trace) + {d}
    {
      disk := d;
      trace := trace + {d};
    }

    /** `_atomic_write` into the image directory: it may raise before, between or after its two steps. */
    method WriteImage(id: CaptureId, picture: Picture) returns (ok: bool)
      requires Durable() && id in captured && captured[id] == picture
      modifies this`disk, this`trace, this`faults
      ensures Durable() && OnlyCaptures() && disk.rows == old(disk).rows
      ensures disk.images == old(disk).images || disk.images == old(disk).images[Sealed(id) := Seal(id, picture)]
      ensures ok ==> disk.images == old(disk).images[Sealed(id) := Seal(id, picture)]
      ensures ok ==> disk.partials == old(disk).partials - {Sealed(id)}
      ensures Smooth(ok)
      ensures |old(faults)| >= 1 && old(faults)[0] ==> !ok && disk == old(disk)
      ensures |old(faults)| >= 2 && !old(faults)[0] && old(faults)[1] ==>
        !ok && disk == old(disk).(partials := old(disk).partials + {Sealed(id)})
      ensures |old(faults)| >= 3 && !old(faults)[0] && !old(faults)[1] && old(faults)[2] ==>
        !ok && disk == old(disk).(images := old(disk).images[Sealed(id) := Seal(id, picture)],
                                  partials := old(disk).partials - {Sealed(id)})
    {
      ok := Succeeds();
      if !ok {
        return;
      }
      OtherPartsDoNotMatter(disk, disk.(partials := disk.partials + {Sealed(id)}), captured);
      Become(disk.(partials := disk.partials + {Sealed(id)}));
      ok := Succeeds();
      if !ok {
        return;
      }
      WritingASealIsSafe(disk, id, captured);
      var written := disk.(images := disk.images[Sealed(id) := Seal(id, picture)]);
      OtherPartsDoNotMatter(written, written.(partials := disk.partials - {Sealed(id)}), captured);
      Become(written.(partials := disk.partials - {Sealed(id)}));
      ok := Succeeds();
    }

    method CommitRows(rows: Rows) returns (ok: bool)
      requires Durable() && Good(disk.(rows := rows), captured)
      modifies this`disk, this`trace, this`faults
      ensures Durable() && OnlyCaptures() && disk == if ok then old(disk).(rows := rows) else old(disk)
      ensures Smooth(ok)
    {
      ok := Succeeds();
      if ok {
        Become(disk.(rows := rows));
      }
    }

    /** Remove an image that no row refers to any more; one that is missing already does not matter. */
    method Unlink(path: Path) returns (ok: bool)
      requires Durable() && path !in Paths(disk.rows)
      modifies this`disk, this`trace, this`faults
      ensures Durable() && OnlyCaptures()
      ensures disk == if ok then old(disk).(images := old(disk).images - {path}) else old(disk)
      ensures Spares(disk.rows, old(disk).images, disk.images)
      ensures Smooth(ok)
    {
      ok := Succeeds();
      if ok {
        ForgettingImagesIsSafe(disk, path, captured);
        Become(disk.(images := disk.images - {path}));
      }
    }

    method UnlinkAll(paths: seq<Path>) returns (ok: bool)
      requires Durable() && forall path :: path in paths ==> path !in Paths(disk.rows)
      modifies this`disk, this`trace, this`faults
      ensures Durable() && OnlyCaptures() && disk.rows == old(disk).rows && disk.partials == old(disk).partials
      ensures disk.images.Keys <= old(disk).images.Keys && Spares(disk.rows, old(disk).images, disk.images)
      ensures ok ==> forall path :: path in paths ==> path !in disk.images
      ensures Smooth(ok)
    {
      ok := true;
      for i := 0 to |paths|
        invariant Durable() && OnlyCaptures() && disk.rows == old(disk).rows && disk.partials == old(disk).partials
        invariant disk.images.Keys <= old(disk).images.Keys && Spares(disk.rows, old(disk).images, disk.images)
        invariant forall k :: 0 <= k < i ==> paths[k] !in disk.images
        invariant old(faults) == [] ==> faults == []
      {
        ok := Unlink(paths[i]);
        if !ok {
          return;
        }
      }
    }

    /** `_trim`. */
    method Trim() returns (ok: bool)
      requires Valid()
      modifies this`disk, this`trace, this`faults, this`pending
      ensures Valid() && OnlyCaptures() && disk.partials == old(disk).partials
      ensures disk.rows == old(disk).rows || Trimmed(old(disk).rows, disk.rows, maxItems)
      ensures ok ==> Trimmed(old(disk).rows, disk.rows, maxItems)
      ensures ok && old(Tidy(disk)) ==> Tidy(disk)
      ensures Smooth(ok)
    {
      var kept, gone := KeepNewest(disk.rows, maxItems);
      FewerRowsAreSafe(disk, kept, captured);
      GonePaths(disk.rows, kept, gone);
      var paths := PathsOf(disk.rows, gone);
      ok := CommitRows(kept);
      if !ok {
        return;
      }
      pending := Max(0, pending - |gone|);
      ok := UnlinkAll(paths);
      if ok && old(Tidy(disk)) {
        NewestArePaths(old(disk), disk, gone);
      }
    }

    /** `add`: the sealed image first, the row after it, and then the oldest captures go. */
    method Add(id: CaptureId, picture: Picture, created: int) returns (ok: bool)
      requires Valid() && id !in captured
      modifies this
      ensures Valid() && captured == old(captured)[id := picture] && old(trace) <= trace
      ensures ok ==> Trimmed(old(disk).rows[id := Row(Sealed(id), created)], disk.rows, maxItems)
      ensures ok && old(Tidy(disk)) ==> Tidy(disk)
      ensures disk.rows == old(disk).rows || disk.rows == old(disk).rows[id := Row(Sealed(id), created)]
           || Trimmed(old(disk).rows[id := Row(Sealed(id), created)], disk.rows, maxItems)
      ensures disk.quarantine == old(disk).quarantine && disk.states == old(disk).states
      ensures Smooth(ok)
    {
      forall d | d in trace
        ensures Good(d, captured[id := picture])
      {
        MorePicturesKeepGood(d, captured, id, picture);
      }
      RowsWereCaptured(disk, captured);
      captured := captured[id := picture];
      ok := WriteImage(id, picture);
      if !ok {
        return;
      }
      NewRowIsSafe(disk, id, created, captured);
      RowCounts(disk.rows, id, Row(Sealed(id), created));
      AddedPath(disk.rows, id, Row(Sealed(id), created));
      ok := CommitRows(disk.rows[id := Row(Sealed(id), created)]);
      if !ok {
        return;
      }
      pending := pending + 1;
      assert Durable() && Counted();
      assert old(Tidy(disk)) ==> Tidy(disk);
      ok := Trim();
    }

    method DropRow(id: CaptureId) returns (ok: bool)
      requires Valid() && id in disk.rows
      modifies this`disk, this`trace, this`faults, this`pending
      ensures Valid() && OnlyCaptures()
      ensures disk == if ok then old(disk).(rows := old(disk).rows - {id}) else old(disk)
      ensures Smooth(ok)
    {
      DroppingIsSafe(disk, id, captured);
      ok := CommitRows(disk.rows - {id});
      if ok {
        assert Durable();
        pending := Max(0, pending - 1);
        assert Durable() && Counted();
      }
    }

    /** `acknowledge`, of a record that `pending` returned. */
    method Acknowledge(id: CaptureId) returns (ok: bool)
      requires Valid() && id in disk.rows
      modifies this`disk, this`trace, this`faults, this`pending
      ensures Valid() && OnlyCaptures()
      ensures disk.rows == old(disk).rows || disk.rows == old(disk).rows - {id}
      ensures ok ==>
        disk == old(disk).(rows := old(disk).rows - {id}, images := old(disk).images - {old(disk).rows[id].image})
      ensures ok && old(Tidy(disk)) ==> Tidy(disk)
      ensures Smooth(ok)
    {
      var path := disk.rows[id].image;
      DroppedPath(disk.rows, id);
      ok := DropRow(id);
      if ok {
        ok := Unlink(path);
      }
    }

    /** `_atomic_write` into the quarantine directory: it may raise before its rename, or after it. */
    method PlaceEnvelope(id: CaptureId) returns (ok: bool, placed: bool)
      requires Durable()
      modifies this`disk, this`trace, this`faults
      ensures Durable() && old(trace) <= trace && (ok ==> placed)
      ensures disk == if placed then old(disk).(envelopes := old(disk).envelopes + {id}) else old(disk)
      ensures placed <==> old(faults) == [] || !old(faults)[0]
      ensures ok <==> placed && (|old(faults)| < 2 || !old(faults)[1])
      ensures Smooth(ok)
    {
      placed := false;
      ok := Succeeds();
      if !ok {
        return;
      }
      OtherPartsDoNotMatter(disk, disk.(envelopes := disk.envelopes + {id}), captured);
      Become(disk.(envelopes := disk.envelopes + {id}));
      placed := true;
      ok := Succeeds();
    }

    /** `_write_quarantine`: a sealed envelope, and a counter that counts completed writes rather than files. The write
        may also raise after its rename, and then the counter stays as it was. It falls below the number of envelopes
        exactly while there are more unseen envelopes than repeated ones. */
    method WriteQuarantine(id: CaptureId) returns (ok: bool)
      requires Valid()
      modifies this`disk, this`trace, this`faults, this`quarantined, this`unseen, this`repeated
      ensures Valid() && captured == old(captured) && old(trace) <= trace
      ensures disk == old(disk).(envelopes := disk.envelopes)
      ensures disk.envelopes == old(disk).envelopes || disk.envelopes == old(disk).envelopes + {id}
      ensures ok ==> id in disk.envelopes
      ensures quarantined == old(quarantined) + if ok then 1 else 0
      ensures unseen == old(unseen) + if !ok && disk.envelopes != old(disk).envelopes then 1 else 0
      ensures repeated == old(repeated) + if ok && id in old(disk).envelopes then 1 else 0
      ensures quarantined < |disk.envelopes| <==> repeated < unseen
      ensures |old(faults)| >= 2 && !old(faults)[0] && old(faults)[1] ==> !ok && id in disk.envelopes
      ensures Smooth(ok)
    {
      ghost var isNew := id !in disk.envelopes;
      OneMoreEnvelope(disk.envelopes, id);
      var placed;
      ok, placed := PlaceEnvelope(id);
      if !ok {
        unseen := unseen + if placed && isNew then 1 else 0;
        return;
      }
      quarantined := quarantined + 1;
      repeated := repeated + if isNew then 0 else 1;
    }

    /** Move a record's image, if it is still there, into quarantine by one rename. */
    method MoveToQuarantine(id: CaptureId) returns (ok: bool)
      requires Valid() && id in disk.rows
      modifies this`disk, this`trace, this`faults
      ensures Valid() && captured == old(captured) && old(trace) <= trace
      ensures disk == old(disk).(images := disk.images, quarantine := disk.quarantine)
      ensures disk.images == old(disk).images || disk.images == old(disk).images - {disk.rows[id].image}
      ensures forall other :: other != id && other in old(disk).quarantine ==>
        other in disk.quarantine && disk.quarantine[other] == old(disk).quarantine[other]
      ensures ok ==> disk.rows[id].image !in disk.images
      ensures ok ==> id in disk.quarantine && Shows(disk.quarantine[id], id, captured)
      ensures Smooth(ok)
    {
      ok := true;
      var path := disk.rows[id].image;
      assert Kept(disk, id, captured);
      if path in disk.images {
        ok := Succeeds();
        if ok {
          MovingToQuarantineIsSafe(disk, id, captured);
          Become(disk.(images := disk.images - {path}, quarantine := disk.quarantine[id := disk.images[path]]));
        }
      }
    }

    /** `quarantine_record`: the image moves, its envelope is written, and only then does the row go. */
    method QuarantineRecord(id: CaptureId) returns (ok: bool)
      requires Valid() && id in disk.rows
      modifies this`disk, this`trace, this`faults, this`pending, this`quarantined, this`unseen, this`repeated
      ensures Valid() && captured == old(captured) && old(trace) <= trace && disk.states == old(disk).states
      ensures disk.rows == if ok then old(disk).rows - {id} else old(disk).rows
      ensures ok ==> id in disk.quarantine && Shows(disk.quarantine[id], id, captured) && id in disk.envelopes
      ensures forall other :: other != id && other in old(disk).quarantine ==>
        other in disk.quarantine && disk.quarantine[other] == old(disk).quarantine[other]
      ensures ok && old(Tidy(disk)) ==> Tidy(disk)
      ensures Smooth(ok)
    {
      DroppedPath(disk.rows, id);
      ok := MoveToQuarantine(id);
      if !ok {
        return;
      }
      ok := WriteQuarantine(id);
      if !ok {
        return;
      }
      ok := DropRow(id);
    }

    /** `read_screenshot`: for a sealed record whose image is there, exactly the picture that was captured. */
    method ReadScreenshot(id: CaptureId) returns (picture: Option<Picture>)
      requires Valid() && id in disk.rows
      ensures picture ==
        if disk.rows[id].image == Sealed(id) && Sealed(id) in disk.images then Some(captured[id]) else None
    {
      var path := disk.rows[id].image;
      assert Kept(disk, id, captured);
      picture := if path in disk.images then Unseal(disk.images[path], id) else None;
    }

    method AddState(id: CaptureId) returns (ok: bool)
      requires Valid() && id !in disk.states
      modifies this`disk, this`trace, this`faults, this`pendingStates
      ensures Valid() && captured == old(captured) && old(trace) <= trace
      ensures disk == if ok then old(disk).(states := old(disk).states + {id}) else old(disk)
      ensures Smooth(ok)
    {
      ok := Succeeds();
      if ok {
        OtherPartsDoNotMatter(disk, disk.(states := disk.states + {id}), captured);
        Become(disk.(states := disk.states + {id}));
        pendingStates := pendingStates + 1;
      }
    }

    /** `acknowledge_state`: the count goes down only if a row went. */
    method AcknowledgeState(id: CaptureId) returns (ok: bool)
      requires Valid()
      modifies this`disk, this`trace, this`faults, this`pendingStates
      ensures Valid() && captured == old(captured) && old(trace) <= trace
      ensures disk == if ok then old(disk).(states := old(disk).states - {id}) else old(disk)
      ensures Smooth(ok)
    {
      ok := Succeeds();
      if ok {
        var deleted := if id in disk.states then 1 else 0;
        OtherPartsDoNotMatter(disk, disk.(states := disk.states - {id}), captured);
        Become(disk.(states := disk.states - {id}));
        pendingStates := Max(0, pendingStates - deleted);
      }
    }

    // ----- Opening the queue -----

    /** Seal the plain image of a row, if there is one; the row itself changes with the transaction. */
    method SealOne(id: CaptureId) returns (ok: bool)
      requires Durable() && id in disk.rows && disk.rows[id].image.Plain?
      modifies this`disk, this`trace, this`faults
      ensures Durable() && OnlyCaptures() && disk.rows == old(disk).rows
      ensures disk.images == old(disk).images || disk.images == old(disk).images[Sealed(id) := Seal(id, captured[id])]
      ensures ok && disk.rows[id].image in old(disk).images ==>
        disk.images == old(disk).images[Sealed(id) := Seal(id, captured[id])]
      ensures disk.rows[id].image !in old(disk).images ==> disk.images == old(disk).images
      ensures Smooth(ok)
    {
      ok := true;
      var path := disk.rows[id].image;
      assert Kept(disk, id, captured);
      if path in disk.images {
        ok := WriteImage(id, disk.images[path].plain);
      }
    }

    /** One row of the loop over the rows. */
    method SealNext(id: CaptureId, rows: Rows, legacy: seq<Path>, ghost before: Disk, ghost done: set<CaptureId>)
      returns (ok: bool, rows': Rows, legacy': seq<Path>)
      requires Durable() && id in rows && id !in done && Progress(before, disk, rows, done, legacy, captured)
      modifies this`disk, this`trace, this`faults
      ensures Durable() && OnlyCaptures()
      ensures ok ==> Progress(before, disk, rows', done + {id}, legacy', captured)
      ensures Smooth(ok)
    {
      ok, rows', legacy' := true, rows, legacy;
      ghost var now := disk;
      RowsWereCaptured(disk, captured);
      if rows[id].image.Plain? && rows[id].image in disk.images {
        ok := SealOne(id);
        if !ok {
          return;
        }
        NowSealed(before, now, disk, rows, done, captured, id);
        PlainPathsForgotten(rows, id, legacy);
        legacy' := legacy + [rows[id].image];
        rows' := rows[id := rows[id].(image := Sealed(id))];
      } else {
        NotPlain(before, disk, rows, done, captured, id);
      }
    }

    /** Seal every plain image, and work out the rows that the transaction will commit. */
    method SealAll() returns (ok: bool, rows: Rows, legacy: seq<Path>)
      requires Durable()
      modifies this`disk, this`trace, this`faults
      ensures Durable() && OnlyCaptures()
      ensures ok ==> Progress(old(disk), disk, rows, rows.Keys, legacy, captured)
      ensures Smooth(ok)
    {
      ghost var before := disk;
      ProgressStarts(disk, captured);
      ok, rows, legacy := true, disk.rows, [];
      var todo := rows.Keys;
      ghost var done: set<CaptureId> := {};
      while todo != {}
        invariant Durable() && OnlyCaptures()
        invariant todo == before.rows.Keys - done && done <= before.rows.Keys
        invariant Progress(before, disk, rows, done, legacy, captured)
        invariant old(faults) == [] ==> faults == []
        decreases todo
      {
        var id :| id in todo;
        ok, rows, legacy := SealNext(id, rows, legacy, before, done);
        if !ok {
          return;
        }
        todo := todo - {id};
        done := done + {id};
      }
      ProgressEnds(before, disk, rows, done, legacy, captured);
    }

    /** The transaction of `_initialize`, and the counts it takes. */
    method SealAndCommit() returns (ok: bool, legacy: seq<Path>, ghost sealed: Disk)
      requires Durable()
      modifies this`disk, this`trace, this`faults, this`pending, this`pendingStates
      ensures Durable() && OnlyCaptures()
      ensures ok ==> Progress(old(disk), sealed, disk.rows, disk.rows.Keys, legacy, captured)
      ensures ok ==> disk == sealed.(rows := disk.rows) && pending == |disk.rows| && pendingStates == |disk.states|
      ensures Smooth(ok)
    {
      var rows;
      ok, rows, legacy := SealAll();
      sealed := disk;
      if ok {
        ResealedIsGood(old(disk), disk, rows, rows.Keys, captured);
        ok := CommitRows(rows);
        pending, pendingStates := |disk.rows|, |disk.states|;
      }
    }

    /** Remove every image that no row refers to, then every half-written file. */
    method Sweep() returns (ok: bool)
      requires Durable()
      modifies this`disk, this`trace, this`faults
      ensures Durable() && OnlyCaptures() && disk.rows == old(disk).rows
      ensures Spares(disk.rows, old(disk).images, disk.images)
      ensures ok ==> Tidy(disk)
      ensures Smooth(ok)
    {
      ok := true;
      var referenced := Paths(disk.rows);
      var todo := disk.images.Keys - referenced;
      while todo != {}
        invariant Durable() && OnlyCaptures() && disk.rows == old(disk).rows && todo !! referenced
        invariant disk.images.Keys <= referenced + todo
        invariant Spares(disk.rows, old(disk).images, disk.images)
        invariant old(faults) == [] ==> faults == []
      {
        var path :| path in todo;
        ok := Unlink(path);
        if !ok {
          return;
        }
        todo := todo - {path};
      }
      while disk.partials != {}
        invariant Durable() && OnlyCaptures() && disk.rows == old(disk).rows
        invariant disk.images.Keys <= referenced
        invariant Spares(disk.rows, old(disk).images, disk.images)
        invariant old(faults) == [] ==> faults == []
        decreases disk.partials
      {
        var path :| path in disk.partials;
        ok := Succeeds();
        if !ok {
          return;
        }
        OtherPartsDoNotMatter(disk, disk.(partials := disk.partials - {path}), captured);
        Become(disk.(partials := disk.partials - {path}));
      }
    }

    /** Remove the plain images that were sealed, and then everything else that no row refers to. */
    method Clear(legacy: seq<Path>) returns (ok: bool)
      requires Durable() && forall path :: path in legacy ==> path !in Paths(disk.rows)
      modifies this`disk, this`trace, this`faults
      ensures Durable() && OnlyCaptures() && disk.rows == old(disk).rows
      ensures Spares(disk.rows, old(disk).images, disk.images)
      ensures ok ==> Tidy(disk)
      ensures Smooth(ok)
    {
      ok := UnlinkAll(legacy);
      if ok {
        ok := Sweep();
      }
    }

    /** Seal what is plain, take the counts of rows, and clear the rest away. */
    method Recover() returns (ok: bool)
      requires Durable()
      modifies this`disk, this`trace, this`faults, this`pending, this`pendingStates
      ensures Durable() && OnlyCaptures()
      ensures ok ==> Recovered(old(disk), disk, captured) && pending == |disk.rows| && pendingStates == |disk.states|
      ensures Smooth(ok)
    {
      var legacy;
      ghost var sealed;
      ok, legacy, sealed := SealAndCommit();
      if !ok {
        return;
      }
      ok := Clear(legacy);
      if ok {
        SealedAndClearedIsRecovered(old(disk), sealed, disk, legacy, captured);
      }
    }

    /** `_initialize`: whatever state a crash left, the queue opens tidy, with every record and its picture. */
    method Initialize() returns (ok: bool)
      requires Durable()
      modifies this
      ensures Durable() && captured == old(captured) && old(trace) <= trace
      ensures ok ==> Valid() && quarantined == |disk.envelopes| && Recovered(old(disk), disk, captured)
      ensures Smooth(ok)
    {
      ok := Recover();
      if ok {
        quarantined, unseen, repeated := |disk.envelopes|, 0, 0;
        assert Durable() && Counted();
      }
    }
  }

  /** A crash at any moment of a process's life, and a new process after it: whichever state the disk was in, the
      new queue has every record with its picture, nothing that no record refers to, and exact counts. */
  method CrashAndReopen(crashed: OfflineQueue, left: Disk, faults: seq<bool>) returns (queue: OfflineQueue, ok: bool)
    requires crashed.Durable() && left in crashed.trace
    ensures fresh(queue) && queue.Durable() && queue.captured == crashed.captured
    ensures ok ==> queue.Valid() && Recovered(left, queue.disk, crashed.captured)
  {
    queue := new OfflineQueue(left, crashed.maxItems, faults, crashed.captured);
    ok := queue.Initialize();
  }

  /** One write that raises after its rename leaves the counter of a newly opened queue short. */
  method ALateFailureIsNotCounted(queue: OfflineQueue, id: CaptureId) returns (ready: bool)
    requires queue.Durable() && id !in queue.disk.envelopes
    modifies queue
    ensures old(queue.faults) == [] ==> ready
    ensures ready ==> queue.Valid() && queue.quarantined == |queue.disk.envelopes| - 1
  {
    ready := queue.Initialize();
    if ready {
      queue.faults := [false, true];
      var _ := queue.WriteQuarantine(id);
    }
  }
}
