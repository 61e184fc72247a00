/** Uploads of captures. Each request checks, saves an object, inserts a row and takes the object back if the row was
    there already, and any number of requests may do so at the same time, for the same capture or for others. */
module CaptureIngest {
  import opened Records

  type CaptureId = nat
  type RequestId = nat
  type ObjectId = nat

  /** A capture as it is uploaded; retries may carry other data, since the agent may blur it in between. */
  datatype Capture = Capture(id: CaptureId, device: DeviceId, at: int, data: string)

  /** A row of `activity_records`, which is unique by its id and by its device and instant. */
  datatype Row = Row(device: DeviceId, at: int, stored: ObjectId)

  datatype Answer = Created | Duplicate

  /** How far a request has got. One that ends without an answer may leave its object behind. */
  datatype Phase =
    | Checked(capture: Capture)
    | Saved(capture: Capture, stored: ObjectId)
    | Lost(capture: Capture, stored: ObjectId)
    | Answered(capture: Capture, answer: Answer)
    | Ended(left: Option<ObjectId>)

  datatype State = State(
    rows: map<CaptureId, Row>,
    objects: map<ObjectId, Capture>,
    requests: map<RequestId, Phase>,
    deleting: set<CaptureId>,
    next: ObjectId)

  /** Objects are named by fresh random numbers, here by counting. A record is deleted by deleting its object first
      and its row second. */
  datatype Step =
    | Arrive(request: RequestId, capture: Capture)
    | Save(request: RequestId)
    | Insert(request: RequestId)
    | TakeBack(request: RequestId)
    | End(request: RequestId)
    | DeleteObject(id: CaptureId)
    | DeleteRow(id: CaptureId)

  predicate SameSlot(row: Row, capture: Capture) { row.device == capture.device && row.at == capture.at }

  /** Some row violates a uniqueness constraint with the capture. */
  predicate Clashes(rows: map<CaptureId, Row>, capture: Capture) {
    capture.id in rows || exists id :: id in rows && SameSlot(rows[id], capture)
  }

  predicate Enabled(s: State, step: Step) {
    match step
    case Arrive(request, _) => request !in s.requests
    case Save(request) => request in s.requests && s.requests[request].Checked?
    case Insert(request) => request in s.requests && s.requests[request].Saved?
    case TakeBack(request) => request in s.requests && s.requests[request].Lost?
    case End(request) => request in s.requests && !s.requests[request].Answered? && !s.requests[request].Ended?
    case DeleteObject(id) => id in s.rows && id !in s.deleting
    case DeleteRow(id) => id in s.rows && id in s.deleting
  }

  function Left(phase: Phase): Option<ObjectId> {
    match phase
    case Saved(_, stored) => Some(stored)
    case Lost(_, stored) => Some(stored)
    case Ended(left) => left
    case _ => None
  }

  function Apply(s: State, step: Step): State
    requires Enabled(s, step)
  {
    match step
    case Arrive(request, capture) =>
      s.(requests := s.requests[request :=
        if capture.id in s.rows then Answered(capture, Duplicate) else Checked(capture)])
    case Save(request) =>
      var capture := s.requests[request].capture;
      s.(requests := s.requests[request := Saved(capture, s.next)],
         objects := s.objects[s.next := capture], next := s.next + 1)
    case Insert(request) =>
      var capture, stored := s.requests[request].capture, s.requests[request].stored;
      if Clashes(s.rows, capture) then s.(requests := s.requests[request := Lost(capture, stored)])
      else s.(requests := s.requests[request := Answered(capture, Created)],
              rows := s.rows[capture.id := Row(capture.device, capture.at, stored)])
    case TakeBack(request) =>
      var capture, stored := s.requests[request].capture, s.requests[request].stored;
      s.(requests := s.requests[request := Answered(capture, Duplicate)], objects := s.objects - {stored})
    case End(request) => s.(requests := s.requests[request := Ended(Left(s.requests[request]))])
    case DeleteObject(id) => s.(objects := s.objects - {s.rows[id].stored}, deleting := s.deleting + {id})
    case DeleteRow(id) => s.(rows := s.rows - {id}, deleting := s.deleting - {id})
  }

  // ----- What a step changes, table by table -----

  predicate About(step: Step, request: RequestId) {
    match step
    case Arrive(r, _) => r == request
    case Save(r) => r == request
    case Insert(r) => r == request
    case TakeBack(r) => r == request
    case End(r) => r == request
    case _ => false
  }

  /** No row has the capture's id, or its device and instant. */
  ghost predicate IsNew(rows: map<CaptureId, Row>, c: Capture) {
    forall id :: id in rows ==> id != c.id && !(rows[id].device == c.device && rows[id].at == c.at)
  }

  ghost predicate Inserts(s: State, step: Step, c: Capture, stored: ObjectId) {
    step.Insert? && step.request in s.requests && s.requests[step.request] == Saved(c, stored) && IsNew(s.rows, c)
  }

  /** A row comes with the insertion of a new capture and goes when its deletion ends. */
  lemma RowsChange(s: State, step: Step)
    requires Enabled(s, step)
    ensures forall id :: id in Apply(s, step).rows <==>
      (id in s.rows && step != DeleteRow(id)) || exists c, stored :: Inserts(s, step, c, stored) && id == c.id
    ensures forall id :: id in s.rows && id in Apply(s, step).rows ==> Apply(s, step).rows[id] == s.rows[id]
    ensures forall c, stored :: Inserts(s, step, c, stored) ==>
      c.id in Apply(s, step).rows && Apply(s, step).rows[c.id] == Row(c.device, c.at, stored)
    ensures forall id :: id in Apply(s, step).deleting <==>
      (id in s.deleting && step != DeleteRow(id)) || step == DeleteObject(id)
  {
    if step.Insert? {
      var phase := s.requests[step.request];
      assert IsNew(s.rows, phase.capture) ==> Inserts(s, step, phase.capture, phase.stored);
    }
  }

  /** An object comes with a save, under the next name,
      and goes when it is taken back or its record is being deleted. */
  lemma ObjectsChange(s: State, step: Step)
    requires Enabled(s, step)
    ensures forall o :: o in Apply(s, step).objects <==>
      || (step.Save? && o == s.next)
      || (o in s.objects
          && !(step.TakeBack? && s.requests[step.request].stored == o)
          && !(step.DeleteObject? && s.rows[step.id].stored == o))
    ensures forall o :: o in s.objects && o in Apply(s, step).objects && o != s.next ==>
      Apply(s, step).objects[o] == s.objects[o]
    ensures step.Save? ==> Apply(s, step).objects[s.next] == s.requests[step.request].capture
    ensures if step.Save? then Apply(s, step).next > s.next else Apply(s, step).next == s.next
  {}

  /** A request arrives, saves, inserts, takes back what was there already and answers, or ends with what it holds. */
  lemma RequestsChange(s: State, step: Step)
    requires Enabled(s, step)
    ensures forall r :: r in Apply(s, step).requests <==> r in s.requests || About(step, r)
    ensures forall r :: r in s.requests && !About(step, r) ==> Apply(s, step).requests[r] == s.requests[r]
    ensures forall r :: About(step, r) ==>
      var after := Apply(s, step).requests[r];
      match step
      case Arrive(_, c) => after == if c.id in s.rows then Answered(c, Duplicate) else Checked(c)
      case Save(_) => after == Saved(s.requests[r].capture, s.next)
      case Insert(_) =>
        var c := s.requests[r].capture;
        after == if IsNew(s.rows, c) then Answered(c, Created) else Lost(c, s.requests[r].stored)
      case TakeBack(_) => after == Answered(s.requests[r].capture, Duplicate)
      case End(_) =>
        after == Ended(if s.requests[r].Saved? || s.requests[r].Lost? then Some(s.requests[r].stored) else None)
      case _ => true
  {}

  /** A record can always be deleted, with its object. */
  lemma RecordsCanBeDeleted(s: State, id: CaptureId)
    requires id in s.rows && id !in s.deleting
    ensures Enabled(s, DeleteObject(id)) && Enabled(Apply(s, DeleteObject(id)), DeleteRow(id))
    ensures var t := Apply(Apply(s, DeleteObject(id)), DeleteRow(id));
      id !in t.rows && id !in t.deleting && s.rows[id].stored !in t.objects
  {}

  /** A request that has no answer yet can end at any moment. */
  lemma RequestsCanEnd(s: State, r: RequestId)
    requires r in s.requests && (s.requests[r].Checked? || s.requests[r].Saved? || s.requests[r].Lost?)
    ensures Enabled(s, End(r))
  {}

  // ----- Invariant -----

  /** The object that a request still has to account for. */
  predicate HoldsObject(s: State, request: RequestId, stored: ObjectId) {
    request in s.requests && Left(s.requests[request]) == Some(stored)
  }

  predicate Refers(s: State, id: CaptureId, stored: ObjectId) { id in s.rows && s.rows[id].stored == stored }

  ghost predicate RowsAreUnique(s: State) {
    && (forall a, b :: a in s.rows && b in s.rows && a != b ==>
        s.rows[a].device != s.rows[b].device || s.rows[a].at != s.rows[b].at)
    && (forall a, b :: a in s.rows && b in s.rows && a != b ==> s.rows[a].stored != s.rows[b].stored)
    && s.deleting <= s.rows.Keys
  }

  /** Every row's object is there, and is an upload of that capture, unless the record is being deleted. */
  ghost predicate RowsHaveObjects(s: State) {
    forall id :: id in s.rows ==>
      && s.rows[id].stored < s.next
      && (id !in s.deleting ==>
            && s.rows[id].stored in s.objects
            && var upload := s.objects[s.rows[id].stored];
               upload.id == id && SameSlot(s.rows[id], upload))
  }

  /** An object in a request's hands is its alone. */
  ghost predicate HeldObjectsAreOwn(s: State) {
    && (forall r: RequestId, o: ObjectId :: HoldsObject(s, r, o) ==> o in s.objects && o < s.next)
    && (forall r: RequestId, o: ObjectId, id: CaptureId :: HoldsObject(s, r, o) ==> !Refers(s, id, o))
    && (forall r: RequestId, q: RequestId, o: ObjectId :: HoldsObject(s, r, o) && HoldsObject(s, q, o) ==> r == q)
    && (forall r: RequestId :: r in s.requests && (s.requests[r].Saved? || s.requests[r].Lost?) ==>
          s.requests[r].stored in s.objects && s.objects[s.requests[r].stored] == s.requests[r].capture)
  }

  /** No object is nobody's. */
  ghost predicate ObjectsAreAccountedFor(s: State) {
    && (forall o: ObjectId :: o in s.objects ==> o < s.next)
    && (forall o: ObjectId :: o in s.objects ==> OwnedBy(s, o))
  }

  ghost predicate OwnedBy(s: State, o: ObjectId) {
    || (exists id: CaptureId :: Refers(s, id, o) && id !in s.deleting)
    || (exists r: RequestId :: HoldsObject(s, r, o))
  }

  ghost predicate Inv(s: State) {
    RowsAreUnique(s) && RowsHaveObjects(s) && HeldObjectsAreOwn(s) && ObjectsAreAccountedFor(s)
  }

  // ----- One lemma for each kind of step -----

  lemma ArrivalKeepsInv(s: State, step: Step)
    requires Inv(s) && Enabled(s, step) && step.Arrive?
    ensures Inv(Apply(s, step))
  {
    SamePossessions(s, Apply(s, step));
  }

  /** Requests may change their phase freely as long as they hold what they held. */
  lemma SamePossessions(s: State, t: State)
    requires Inv(s)
    requires t.rows == s.rows && t.objects == s.objects && t.deleting == s.deleting && t.next == s.next
    requires forall r: RequestId, o: ObjectId :: HoldsObject(t, r, o) <==> HoldsObject(s, r, o)
    requires forall r: RequestId :: r in t.requests && (t.requests[r].Saved? || t.requests[r].Lost?) ==>
      r in s.requests && (s.requests[r].Saved? || s.requests[r].Lost?) && s.requests[r].capture == t.requests[r].capture
    ensures Inv(t)
  {
    forall r: RequestId, o: ObjectId | HoldsObject(t, r, o)
      ensures o in t.objects && o < t.next && forall id: CaptureId :: !Refers(t, id, o)
    {
      assert HoldsObject(s, r, o);
      assert forall id: CaptureId :: Refers(t, id, o) == Refers(s, id, o);
    }
    forall r: RequestId | r in t.requests && (t.requests[r].Saved? || t.requests[r].Lost?)
      ensures t.requests[r].stored in t.objects && t.objects[t.requests[r].stored] == t.requests[r].capture
    {
      assert HoldsObject(t, r, t.requests[r].stored);
      assert HoldsObject(s, r, s.requests[r].stored);
      assert HoldsObject(s, r, t.requests[r].stored);
    }
    forall o: ObjectId | o in t.objects
      ensures OwnedBy(t, o)
    {
      assert OwnedBy(s, o);
      if id: CaptureId :| Refers(s, id, o) && id !in s.deleting {
        assert Refers(t, id, o);
      } else {
        var r: RequestId :| HoldsObject(s, r, o);
        assert HoldsObject(t, r, o);
      }
    }
  }

  lemma EndKeepsInv(s: State, step: Step)
    requires Inv(s) && Enabled(s, step) && step.End?
    ensures Inv(Apply(s, step))
  {
    SamePossessions(s, Apply(s, step));
  }

  lemma SaveKeepsInv(s: State, step: Step)
    requires Inv(s) && Enabled(s, step) && step.Save?
    ensures Inv(Apply(s, step))
  {
    var t := Apply(s, step);
    assert HoldsObject(t, step.request, s.next);
    forall r: RequestId, o: ObjectId | HoldsObject(t, r, o)
      ensures if r == step.request then o == s.next else HoldsObject(s, r, o)
    {}
    forall o: ObjectId, id: CaptureId
      ensures Refers(t, id, o) == Refers(s, id, o)
    {}
    forall o: ObjectId | o in t.objects
      ensures OwnedBy(t, o)
    {
      if o != s.next {
        assert OwnedBy(s, o);
        if id: CaptureId :| Refers(s, id, o) && id !in s.deleting {
          assert Refers(t, id, o);
        } else {
          var r: RequestId :| HoldsObject(s, r, o);
          assert HoldsObject(t, r, o);
        }
      }
    }
  }

  lemma ClashKeepsInv(s: State, step: Step)
    requires Inv(s) && Enabled(s, step) && step.Insert? && Clashes(s.rows, s.requests[step.request].capture)
    ensures Inv(Apply(s, step))
  {
    SamePossessions(s, Apply(s, step));
  }

  lemma InsertKeepsAccounts(s: State, step: Step)
    requires Inv(s) && Enabled(s, step) && step.Insert? && !Clashes(s.rows, s.requests[step.request].capture)
    ensures ObjectsAreAccountedFor(Apply(s, step))
  {
    var t := Apply(s, step);
    var capture, stored := s.requests[step.request].capture, s.requests[step.request].stored;
    assert Refers(t, capture.id, stored);
    forall o: ObjectId | o in t.objects
      ensures OwnedBy(t, o)
    {
      if o != stored {
        assert OwnedBy(s, o);
        if id: CaptureId :| Refers(s, id, o) && id !in s.deleting {
          assert Refers(t, id, o);
        } else {
          var r: RequestId :| HoldsObject(s, r, o);
          assert HoldsObject(t, r, o);
        }
      }
    }
  }

  lemma InsertKeepsRows(s: State, step: Step)
    requires Inv(s) && Enabled(s, step) && step.Insert? && !Clashes(s.rows, s.requests[step.request].capture)
    ensures RowsAreUnique(Apply(s, step)) && RowsHaveObjects(Apply(s, step))
  {
    var capture, stored := s.requests[step.request].capture, s.requests[step.request].stored;
    assert HoldsObject(s, step.request, stored);
    forall a | a in s.rows
      ensures s.rows[a].stored != stored && !SameSlot(s.rows[a], capture)
    {
      assert !Refers(s, a, stored);
    }
  }

  lemma InsertKeepsHeld(s: State, step: Step)
    requires Inv(s) && Enabled(s, step) && step.Insert? && !Clashes(s.rows, s.requests[step.request].capture)
    ensures HeldObjectsAreOwn(Apply(s, step))
  {
    var t := Apply(s, step);
    var capture, stored := s.requests[step.request].capture, s.requests[step.request].stored;
    assert HoldsObject(s, step.request, stored);
    forall r: RequestId, o: ObjectId | HoldsObject(t, r, o)
      ensures HoldsObject(s, r, o) && o != stored
    {
      assert r != step.request && HoldsObject(s, r, o);
    }
    forall o: ObjectId, id: CaptureId | id != capture.id
      ensures Refers(t, id, o) == Refers(s, id, o)
    {}
  }

  lemma TakeBackKeepsInv(s: State, step: Step)
    requires Inv(s) && Enabled(s, step) && step.TakeBack?
    ensures Inv(Apply(s, step))
  {
    var t := Apply(s, step);
    var stored := s.requests[step.request].stored;
    assert HoldsObject(s, step.request, stored);
    forall a | a in s.rows
      ensures s.rows[a].stored != stored
    {
      assert !Refers(s, a, stored);
    }
    forall r: RequestId, o: ObjectId | HoldsObject(t, r, o)
      ensures HoldsObject(s, r, o) && o != stored
    {
      assert r != step.request && HoldsObject(s, r, o);
    }
    forall r: RequestId | r in t.requests && (t.requests[r].Saved? || t.requests[r].Lost?)
      ensures t.requests[r].stored in t.objects
    {
      assert HoldsObject(t, r, t.requests[r].stored);
    }
    forall o: ObjectId, id: CaptureId
      ensures Refers(t, id, o) == Refers(s, id, o)
    {}
    forall o: ObjectId | o in t.objects
      ensures OwnedBy(t, o)
    {
      assert OwnedBy(s, o);
      if id: CaptureId :| Refers(s, id, o) && id !in s.deleting {
        assert Refers(t, id, o);
      } else {
        var r: RequestId :| HoldsObject(s, r, o);
        assert HoldsObject(t, r, o);
      }
    }
  }

  /** What requests hold, no row refers to, so deleting a row's object does not touch it. */
  lemma DeletionSparesRequests(s: State, t: State, gone: Option<ObjectId>)
    requires HeldObjectsAreOwn(s)
    requires t.requests == s.requests && t.next == s.next
    requires gone.Some? ==> exists id: CaptureId :: Refers(s, id, gone.value)
    requires t.objects == if gone.Some? then s.objects - {gone.value} else s.objects
    requires t.rows.Keys <= s.rows.Keys && forall id :: id in t.rows ==> t.rows[id] == s.rows[id]
    ensures HeldObjectsAreOwn(t)
  {
    forall r: RequestId, o: ObjectId
      ensures HoldsObject(t, r, o) == HoldsObject(s, r, o)
    {}
    forall r: RequestId, o: ObjectId | HoldsObject(s, r, o)
      ensures o in t.objects && gone != Some(o)
    {}
    forall r: RequestId | r in t.requests && (t.requests[r].Saved? || t.requests[r].Lost?)
      ensures t.requests[r].stored in t.objects
    {
      assert HoldsObject(s, r, t.requests[r].stored);
    }
    forall o: ObjectId, id: CaptureId | Refers(t, id, o)
      ensures Refers(s, id, o)
    {}
  }

  lemma DeletionKeepsAccounts(s: State, t: State, id: CaptureId)
    requires Inv(s) && id in s.rows && t.requests == s.requests && t.next == s.next
    requires t.objects.Keys <= s.objects.Keys && (id in s.deleting || s.rows[id].stored !in t.objects)
    requires forall other :: other in s.rows && other != id ==> other in t.rows && t.rows[other] == s.rows[other]
    requires forall other :: other in t.deleting ==> other == id || other in s.deleting
    ensures ObjectsAreAccountedFor(t)
  {
    forall o: ObjectId | o in t.objects
      ensures OwnedBy(t, o)
    {
      assert OwnedBy(s, o);
      if other: CaptureId :| Refers(s, other, o) && other !in s.deleting {
        assert Refers(t, other, o) && other !in t.deleting;
      } else {
        var r: RequestId :| HoldsObject(s, r, o);
        assert HoldsObject(t, r, o);
      }
    }
  }

  lemma DeleteObjectKeepsInv(s: State, step: Step)
    requires Inv(s) && Enabled(s, step) && step.DeleteObject?
    ensures Inv(Apply(s, step))
  {
    assert Refers(s, step.id, s.rows[step.id].stored);
    DeletionSparesRequests(s, Apply(s, step), Some(s.rows[step.id].stored));
    DeletionKeepsAccounts(s, Apply(s, step), step.id);
  }

  lemma DeleteRowKeepsInv(s: State, step: Step)
    requires Inv(s) && Enabled(s, step) && step.DeleteRow?
    ensures Inv(Apply(s, step))
  {
    DeletionSparesRequests(s, Apply(s, step), None);
    DeletionKeepsAccounts(s, Apply(s, step), step.id);
  }

  lemma StepKeepsInv(s: State, step: Step)
    requires Inv(s) && Enabled(s, step)
    ensures Inv(Apply(s, step))
  {
    match step
    case Arrive(_, _) => ArrivalKeepsInv(s, step);
    case Save(_) => SaveKeepsInv(s, step);
    case Insert(request) =>
      if Clashes(s.rows, s.requests[request].capture) {
        ClashKeepsInv(s, step);
      } else {
        InsertKeepsRows(s, step);
        InsertKeepsHeld(s, step);
        InsertKeepsAccounts(s, step);
      }
    case TakeBack(_) => TakeBackKeepsInv(s, step);
    case End(_) => EndKeepsInv(s, step);
    case DeleteObject(_) => DeleteObjectKeepsInv(s, step);
    case DeleteRow(_) => DeleteRowKeepsInv(s, step);
  }

  // ----- Runs -----

  function Empty(): State { State(map[], map[], map[], {}, 0) }

  predicate IsRun(s: State, steps: seq<Step>)
    decreases |steps|
  {
    steps == [] || (Enabled(s, steps[0]) && IsRun(Apply(s, steps[0]), steps[1..]))
  }

  function After(s: State, steps: seq<Step>): State
    requires IsRun(s, steps)
    decreases |steps|
  {
    if steps == [] then s else After(Apply(s, steps[0]), steps[1..])
  }

  lemma EmptyIsSound()
    ensures Inv(Empty()) && AnswersHold(Empty())
  {}

  lemma {:induction false} RunKeepsInv(s: State, steps: seq<Step>)
    requires Inv(s) && IsRun(s, steps)
    ensures Inv(After(s, steps))
    decreases |steps|
  {
    if steps != [] {
      StepKeepsInv(s, steps[0]);
      RunKeepsInv(Apply(s, steps[0]), steps[1..]);
    }
  }

  /** In whatever way requests, failures and deletions fall together, there is at most one row for a capture, and for
      a device and instant; its object is there until the record is deleted; and every other object is in the hands of
      one request. */
  lemma EveryReachableStateIsSound(steps: seq<Step>)
    requires IsRun(Empty(), steps)
    ensures Inv(After(Empty(), steps))
  {
    EmptyIsSound();
    RunKeepsInv(Empty(), steps);
  }

  /** No object is left over exactly when no request still has one: neither one that is under way nor one that ended
      in a failure after it had saved. */
  lemma NothingIsLeftBehind(s: State)
    requires Inv(s)
    ensures (forall o: ObjectId :: o in s.objects ==> exists id: CaptureId :: Refers(s, id, o))
       <==> (forall r: RequestId :: r in s.requests ==> Left(s.requests[r]) == None)
  {
    if forall r: RequestId :: r in s.requests ==> Left(s.requests[r]) == None {
      forall o: ObjectId | o in s.objects
        ensures exists id: CaptureId :: Refers(s, id, o)
      {
        assert OwnedBy(s, o);
        assert forall r: RequestId :: !HoldsObject(s, r, o);
      }
    } else {
      var r: RequestId :| r in s.requests && Left(s.requests[r]) != None;
      var o := Left(s.requests[r]).value;
      assert HoldsObject(s, r, o);
      assert o in s.objects && forall id: CaptureId :: !Refers(s, id, o);
    }
  }

  // ----- What an answer means -----

  /** A request that was told so has its capture, or another capture of the same device and instant, in the table. */
  predicate AnswersHold(s: State) {
    forall r :: r in s.requests ==>
      match s.requests[r]
      case Answered(capture, Created) => capture.id in s.rows
      case Answered(capture, Duplicate) => Clashes(s.rows, capture)
      case Lost(capture, _) => Clashes(s.rows, capture)
      case _ => true
  }

  lemma {:induction false} AnswersHoldWithoutDeletion(s: State, steps: seq<Step>)
    requires AnswersHold(s) && IsRun(s, steps)
    requires forall i :: 0 <= i < |steps| ==> !steps[i].DeleteRow?
    ensures AnswersHold(After(s, steps))
    decreases |steps|
  {
    if steps != [] {
      var t := Apply(s, steps[0]);
      assert forall id :: id in s.rows ==> id in t.rows && t.rows[id] == s.rows[id];
      AnswersHoldWithoutDeletion(t, steps[1..]);
    }
  }

  predicate SlotsTellCapturesApart(s: State) {
    forall r, id :: r in s.requests && s.requests[r].Answered? && id in s.rows ==>
      (SameSlot(s.rows[id], s.requests[r].capture) ==> id == s.requests[r].capture.id)
  }

  /** Uploads with one identifier are of one device and instant, as the agent's are. */
  predicate RetriesAgree(s: State) {
    forall r, id :: r in s.requests && s.requests[r].Answered? && id in s.rows ==>
      (id == s.requests[r].capture.id ==> SameSlot(s.rows[id], s.requests[r].capture))
  }

  /** Every answered capture is in the table exactly when no two captures share a device and an instant. */
  lemma AnsweredMeansRecorded(s: State)
    requires AnswersHold(s) && Inv(s)
    requires RetriesAgree(s)
    ensures (forall r :: r in s.requests && s.requests[r].Answered? ==> s.requests[r].capture.id in s.rows)
       <==> SlotsTellCapturesApart(s)
  {
    if forall r :: r in s.requests && s.requests[r].Answered? ==> s.requests[r].capture.id in s.rows {
      forall r, id | r in s.requests && s.requests[r].Answered? && id in s.rows &&
          SameSlot(s.rows[id], s.requests[r].capture)
        ensures id == s.requests[r].capture.id
      {
        assert s.requests[r].capture.id in s.rows;
      }
    }
  }

  /** Over every run without deletions, whose uploads agree on what they retry: every answered capture itself is in the
      table exactly when no two captures share a device and an instant. */
  lemma AnsweredInEveryRun(steps: seq<Step>)
    requires IsRun(Empty(), steps) && RetriesAgree(After(Empty(), steps))
    requires forall i :: 0 <= i < |steps| ==> !steps[i].DeleteRow?
    ensures var s := After(Empty(), steps);
      ((forall r :: r in s.requests && s.requests[r].Answered? ==> s.requests[r].capture.id in s.rows)
        <==> SlotsTellCapturesApart(s))
  {
    EmptyIsSound();
    EveryReachableStateIsSound(steps);
    AnswersHoldWithoutDeletion(Empty(), steps);
    AnsweredMeansRecorded(After(Empty(), steps));
  }

  /** The second of two captures of one instant is answered as a duplicate, and is nowhere. */
  lemma ADuplicateMayBeAnotherCapture(device: DeviceId, at: int) returns (steps: seq<Step>, s: State)
    ensures IsRun(Empty(), steps) && s == After(Empty(), steps)
    ensures 2 in s.requests && s.requests[2] == Answered(Capture(8, device, at, "b"), Duplicate) && 8 !in s.rows
  {
    var s1 := Apply(Empty(), Arrive(1, Capture(7, device, at, "a")));
    var s2 := Apply(s1, Save(1));
    var s3 := Apply(s2, Insert(1));
    assert 7 in s3.rows && SameSlot(s3.rows[7], Capture(8, device, at, "b"));
    var s4 := Apply(s3, Arrive(2, Capture(8, device, at, "b")));
    var s5 := Apply(s4, Save(2));
    assert Clashes(s5.rows, Capture(8, device, at, "b"));
    var s6 := Apply(s5, Insert(2));
    s := Apply(s6, TakeBack(2));
    steps := [Arrive(1, Capture(7, device, at, "a")), Save(1), Insert(1),
              Arrive(2, Capture(8, device, at, "b")), Save(2), Insert(2), TakeBack(2)];
    assert steps[6..] == [TakeBack(2)] && IsRun(s6, steps[6..]) && After(s6, steps[6..]) == s;
    assert steps[5..][1..] == steps[6..] && IsRun(s5, steps[5..]) && After(s5, steps[5..]) == s;
    assert steps[4..][1..] == steps[5..] && IsRun(s4, steps[4..]) && After(s4, steps[4..]) == s;
    assert steps[3..][1..] == steps[4..] && IsRun(s3, steps[3..]) && After(s3, steps[3..]) == s;
    assert steps[2..][1..] == steps[3..] && IsRun(s2, steps[2..]) && After(s2, steps[2..]) == s;
    assert steps[1..][1..] == steps[2..] && IsRun(s1, steps[1..]) && After(s1, steps[1..]) == s;
  }

  // ----- One request at a time -----

  /** A request that nothing interrupts and nothing else runs beside. */
  function Serve(s: State, request: RequestId, capture: Capture): (t: State)
    requires request !in s.requests
    ensures request in t.requests && t.requests[request].Answered?
  {
    var s1 := Apply(s, Arrive(request, capture));
    if s1.requests[request].Answered? then s1
    else
      var s3 := Apply(Apply(s1, Save(request)), Insert(request));
      if s3.requests[request].Answered? then s3 else Apply(s3, TakeBack(request))
  }

  class Server {
    var rows: map<CaptureId, Row>
    var objects: map<ObjectId, Capture>
    var next: ObjectId

    ghost function Alone(): State
      reads this
    {
      State(rows, objects, map[], {}, next)
    }

    method SaveObject(capture: Capture) returns (stored: ObjectId)
      modifies this`objects, this`next
      ensures stored == old(next) && objects == old(objects)[stored := capture] && next == old(next) + 1
    {
      stored := next;
      objects := objects[stored := capture];
      next := next + 1;
    }

    /** `add_record`: false when a uniqueness constraint forbids the row. */
    method AddRecord(capture: Capture, stored: ObjectId) returns (created: bool)
      modifies this`rows
      ensures created <==> !Clashes(old(rows), capture)
      ensures rows == if created then old(rows)[capture.id := Row(capture.device, capture.at, stored)] else old(rows)
    {
      if capture.id in rows {
        return false;
      }
      var todo := rows.Keys;
      while todo != {}
        invariant todo <= rows.Keys
        invariant forall id :: id in rows.Keys - todo ==> !SameSlot(rows[id], capture)
      {
        var id :| id in todo;
        if SameSlot(rows[id], capture) {
          return false;
        }
        todo := todo - {id};
      }
      rows := rows[capture.id := Row(capture.device, capture.at, stored)];
      created := true;
    }

    /** `ingest_activity`, once the request's form, policy, session and size have been accepted. */
    method IngestActivity(capture: Capture) returns (answer: Answer)
      modifies this
      ensures var end := Serve(old(Alone()), 0, capture);
              Alone() == end.(requests := map[]) && end.requests[0] == Answered(capture, answer)
      ensures answer == Created <==> !Clashes(old(rows), capture)
      ensures answer == Created ==> rows == old(rows)[capture.id := Row(capture.device, capture.at, old(next))]
      ensures answer == Created ==> objects == old(objects)[old(next) := capture]
      ensures answer == Duplicate ==> rows == old(rows) && (old(next) !in old(objects) ==> objects == old(objects))
    {
      if capture.id in rows {
        return Duplicate;
      }
      var stored := SaveObject(capture);
      var created := AddRecord(capture, stored);
      if !created {
        objects := objects - {stored};
      }
      answer := if created then Created else Duplicate;
    }
  }
}
