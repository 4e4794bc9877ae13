/** The notifications service's requests and workers on its tables, each run from start to end without
    anything in between. Rows that other open transactions have locked stay in `ticks` and `batches`. */
module NotificationsService {
  import opened Options
  import opened Keyset
  import opened Notifications
  import opened Outbox

  datatype Error = NotFound | Forbidden | Conflict

  datatype Result<+T> = Ok(value: T) | Err(error: Error)

  datatype TickResult = TickResult(picked: nat, due: nat, backlog: nat)

  /** The draws of a tick: the i-th fresh id becomes the event of the i-th row. */
  function EmitOf(rows: seq<int>, freshIds: seq<int>): map<int, int>
    requires |rows| <= |freshIds|
  {
    if rows == [] then
      map[]
    else
      var last := |rows| - 1;
      EmitOf(rows[..last], freshIds)[freshIds[last] := rows[last]]
  }

  function RowIds(keys: seq<Key>): (ids: seq<int>)
    ensures |ids| == |keys|
  {
    seq(|keys|, i requires 0 <= i < |keys| => keys[i].1)
  }

  function PublishAll(s: Tables, batch: int, replies: seq<Reply>): Tables {
    if replies == [] then
      s
    else
      PublishStep(PublishAll(s, batch, replies[..|replies| - 1]), batch, replies[|replies| - 1])
  }

  lemma {:induction false} EmitOfDrawsEachOnce(rows: seq<int>, freshIds: seq<int>)
    requires |rows| <= |freshIds| && Distinct(rows) && Distinct(freshIds)
    ensures var emit := EmitOf(rows, freshIds);
            && (forall e :: e in emit <==> e in freshIds[..|rows|])
            && (forall n :: n in Targets(emit) <==> n in rows)
            && Injective(emit)
  {
    if rows != [] {
      var last := |rows| - 1;
      var before, emit := EmitOf(rows[..last], freshIds), EmitOf(rows, freshIds);
      EmitOfDrawsEachOnce(rows[..last], freshIds);
      assert freshIds[..last + 1] == freshIds[..last] + [freshIds[last]];
      assert rows == rows[..last] + [rows[last]];
      assert freshIds[last] !in before && rows[last] !in Targets(before);
      forall n ensures n in Targets(emit) <==> n in rows {
        if n in Targets(before) {
          var e :| e in before && before[e] == n;
          assert emit[e] == n;
        } else if n == rows[last] {
          assert emit[freshIds[last]] == n;
        }
      }
      forall e | e in before ensures before[e] != rows[last] {
        assert before[e] in Targets(before);
      }
    }
  }

  lemma DueBatchIsDistinct(s: Tables, limit: nat)
    ensures Distinct(RowIds(DueBatch(s, limit)))
    ensures forall n :: n in RowIds(DueBatch(s, limit)) <==> n in Ids(DueBatch(s, limit))
  {
    var free, batch := Free(DueKeys(s), Locked(s.ticks)), DueBatch(s, limit);
    SortSorts(free);
    forall i | 0 <= i < |batch| ensures HasTime(s, batch[i]) {
      assert batch[i] in Sort(free);
    }
    forall n | n in Ids(batch) ensures n in RowIds(batch) {
      var k :| k in batch && k.1 == n;
      var i :| 0 <= i < |batch| && batch[i] == k;
      assert RowIds(batch)[i] == n;
    }
  }

  /** The rows a tick locks are scheduled, and it draws one event for each. */
  lemma TickDraws(s: Tables, tick: int, limit: nat, freshIds: seq<int>)
    requires tick !in s.ticks
    requires |DueBatch(s, limit)| <= |freshIds| && Distinct(freshIds)
    requires forall e :: e in freshIds ==> e !in s.outbox
    ensures var rows, locked := RowIds(DueBatch(s, limit)), TickLockStep(s, tick, limit);
            && Targets(EmitOf(rows, freshIds)) == (set n | n in rows)
            && CanCommitTick(locked, tick, EmitOf(rows, freshIds))
  {
    var rows, locked := RowIds(DueBatch(s, limit)), TickLockStep(s, tick, limit);
    LockedRowsAreScheduled(s, limit);
    DueBatchIsDistinct(s, limit);
    EmitOfDrawsEachOnce(rows, freshIds);
    forall n ensures n in StillScheduled(s.notes, locked.ticks[tick]) <==> n in rows {
      assert n in locked.ticks[tick] <==> n in rows;
    }
    assert StillScheduled(s.notes, locked.ticks[tick]) == Targets(EmitOf(rows, freshIds));
    forall e | e in EmitOf(rows, freshIds) ensures e !in s.outbox {
      assert e in freshIds[..|rows|];
    }
  }

  lemma LockedRowsAreScheduled(s: Tables, limit: nat)
    ensures Distinct(RowIds(DueBatch(s, limit)))
    ensures forall n :: n in RowIds(DueBatch(s, limit)) ==> IsScheduled(s.notes, n)
  {
    DueBatchIsDistinct(s, limit);
    forall n | n in RowIds(DueBatch(s, limit)) ensures IsScheduled(s.notes, n) {
      BatchIsDueAndFree(s, limit, n);
    }
  }

  /** A whole tick, table by table. */
  lemma TickEffect(s: Tables, tick: int, limit: nat, freshIds: seq<int>)
    requires tick !in s.ticks
    requires |DueBatch(s, limit)| <= |freshIds| && Distinct(freshIds)
    requires forall e :: e in freshIds ==> e !in s.outbox
    ensures var rows := RowIds(DueBatch(s, limit));
            var notes := MarkQueued(s.notes, set n | n in rows);
            && CanCommitTick(TickLockStep(s, tick, limit), tick, EmitOf(rows, freshIds))
            && TickCommitStep(TickLockStep(s, tick, limit), tick, EmitOf(rows, freshIds))
               == s.(notes := notes, outbox := s.outbox + NewEvents(notes, EmitOf(rows, freshIds), s.clock))
  {
    TickDraws(s, tick, limit, freshIds);
    assert s.ticks[tick := Ids(DueBatch(s, limit))] - {tick} == s.ticks;
  }

  /** The loop over the queued rows, on values. */
  function WithEvents(outbox: map<int, OutboxRow>, notes: map<int, Note>, queued: seq<int>, freshIds: seq<int>, at: int)
      : map<int, OutboxRow>
    requires |queued| <= |freshIds|
  {
    outbox + NewEvents(notes, EmitOf(queued, freshIds), at)
  }

  lemma WithNoEvents(outbox: map<int, OutboxRow>, notes: map<int, Note>, freshIds: seq<int>, at: int)
    ensures WithEvents(outbox, notes, [], freshIds, at) == outbox
  {
    assert EmitOf([], freshIds) == map[];
    assert NewEvents(notes, map[], at) == map[];
  }

  lemma WithOneMoreEvent(outbox: map<int, OutboxRow>, notes: map<int, Note>, queued: seq<int>, freshIds: seq<int>,
                         i: nat, at: int)
    requires i < |queued| <= |freshIds| && queued[i] in notes
    ensures WithEvents(outbox, notes, queued[..i + 1], freshIds, at)
         == WithEvents(outbox, notes, queued[..i], freshIds, at)
              [freshIds[i] := NewEvent(queued[i], notes[queued[i]], at)]
  {
    EventsAppend(notes, queued, freshIds, i, at);
    OverlayNext(outbox, NewEvents(notes, EmitOf(queued[..i], freshIds), at), freshIds[i],
                NewEvent(queued[i], notes[queued[i]], at));
  }

  lemma EventsAppend(notes: map<int, Note>, queued: seq<int>, freshIds: seq<int>, i: nat, at: int)
    requires i < |queued| <= |freshIds| && queued[i] in notes
    ensures NewEvents(notes, EmitOf(queued[..i + 1], freshIds), at)
         == NewEvents(notes, EmitOf(queued[..i], freshIds), at)
              [freshIds[i] := NewEvent(queued[i], notes[queued[i]], at)]
  {
    assert queued[..i + 1][..i] == queued[..i];
    assert EmitOf(queued[..i + 1], freshIds) == EmitOf(queued[..i], freshIds)[freshIds[i] := queued[i]];
  }

  /** The rows that the queueing update finds still scheduled. */
  function PickedKeys(notes: map<int, Note>, ids: seq<int>): set<Key> {
    set k | k in ScheduledKeys(notes) && k.1 in ids
  }

  /** Where a scheduled row stands in the order. */
  function TimeKey(notes: map<int, Note>, n: int): Key {
    (if n in notes && notes[n].scheduledAt.Some? then notes[n].scheduledAt.value else 0, n)
  }

  lemma SortedPicks(notes: map<int, Note>, ids: seq<int>)
    requires forall n :: IsScheduled(notes, n) ==> notes[n].scheduledAt.Some?
    ensures var queued := RowIds(Sort(PickedKeys(notes, ids)));
            && (forall n :: n in queued <==> n in ids && IsScheduled(notes, n))
            && forall i, j :: 0 <= i < j < |queued| ==> Lt(TimeKey(notes, queued[i]), TimeKey(notes, queued[j]))
  {
    var keys := Sort(PickedKeys(notes, ids));
    var queued := RowIds(keys);
    SortSorts(PickedKeys(notes, ids));
    forall i | 0 <= i < |keys|
      ensures keys[i] == TimeKey(notes, queued[i]) && queued[i] in ids && IsScheduled(notes, queued[i])
    {
      assert keys[i] in PickedKeys(notes, ids);
    }
    forall n | n in ids && IsScheduled(notes, n) ensures n in queued {
      assert TimeKey(notes, n) in PickedKeys(notes, ids);
      var i :| 0 <= i < |keys| && keys[i] == TimeKey(notes, n);
      assert queued[i] == n;
    }
  }

  /** The reported rows are determined: those picked, in the order of the index. */
  lemma ReportedAreSortedPicks(notes: map<int, Note>, ids: seq<int>, queued: seq<int>)
    requires forall n :: IsScheduled(notes, n) ==> notes[n].scheduledAt.Some?
    requires forall n :: n in queued <==> n in ids && IsScheduled(notes, n)
    requires forall i, j :: 0 <= i < j < |queued| ==> Lt(TimeKey(notes, queued[i]), TimeKey(notes, queued[j]))
    ensures queued == RowIds(Sort(PickedKeys(notes, ids)))
  {
    var keys := seq(|queued|, i requires 0 <= i < |queued| => TimeKey(notes, queued[i]));
    forall k ensures k in keys <==> k in PickedKeys(notes, ids) {
      if k in keys {
        var i :| 0 <= i < |queued| && keys[i] == k;
        assert queued[i] in queued;
      }
      if k in PickedKeys(notes, ids) {
        assert k.1 in queued && k == TimeKey(notes, k.1);
        var i :| 0 <= i < |queued| && queued[i] == k.1;
        assert keys[i] == k;
      }
    }
    assert PickedKeys(notes, ids) == set k | k in keys;
    SortedIsSort(keys);
    assert RowIds(keys) == queued;
  }

  lemma QueuedIsMarkQueued(notes: map<int, Note>, notes': map<int, Note>, ids: seq<int>)
    requires notes'.Keys == notes.Keys
    requires forall n :: n in notes ==>
               notes'[n] == if n in ids && IsScheduled(notes, n) then notes[n].(status := Queued) else notes[n]
    ensures notes' == MarkQueued(notes, StillScheduled(notes, set n | n in ids))
  {
    var marked := MarkQueued(notes, StillScheduled(notes, set n | n in ids));
    forall n | n in notes ensures notes'[n] == marked[n] {
      assert n in StillScheduled(notes, set m | m in ids) <==> n in ids && IsScheduled(notes, n);
    }
  }

  lemma DueKeyIsScheduled(s: Tables, limit: nat, k: Key)
    requires k in DueBatch(s, limit)
    ensures k in ScheduledKeys(s.notes) && HasTime(s, k)
  {
    var free := Free(DueKeys(s), Locked(s.ticks));
    SortSorts(free);
    assert k in Sort(free);
  }

  /** A tick finds all the rows it has locked, in the order in which it has locked them. */
  lemma LockedRowsArePicked(s: Tables, limit: nat)
    ensures RowIds(Sort(PickedKeys(s.notes, RowIds(DueBatch(s, limit))))) == RowIds(DueBatch(s, limit))
  {
    var batch := DueBatch(s, limit);
    var ids := RowIds(batch);
    forall k ensures k in PickedKeys(s.notes, ids) <==> k in batch {
      if k in batch {
        var i :| 0 <= i < |batch| && batch[i] == k;
        assert ids[i] == k.1;
        DueKeyIsScheduled(s, limit, k);
      }
      if k in PickedKeys(s.notes, ids) {
        var i :| 0 <= i < |ids| && ids[i] == k.1;
        DueKeyIsScheduled(s, limit, batch[i]);
        ScheduledKeyIsTime(s, k);
        assert batch[i] == k;
      }
    }
    assert PickedKeys(s.notes, ids) == set k | k in batch;
    SortSorts(Free(DueKeys(s), Locked(s.ticks)));
    SortedIsSort(batch);
  }

  lemma ScheduledKeyIsTime(s: Tables, k: Key)
    requires k in ScheduledKeys(s.notes)
    ensures HasTime(s, k)
  {
  }

  predicate HasTime(s: Tables, k: Key) {
    k.1 in s.notes && s.notes[k.1].scheduledAt == Some(k.0)
  }

  lemma StillScheduledAreAll(notes: map<int, Note>, ids: seq<int>)
    requires forall n :: n in ids ==> IsScheduled(notes, n)
    ensures StillScheduled(notes, set n | n in ids) == set n | n in ids
    ensures forall i :: 0 <= i < |ids| ==> ids[i] in notes
  {
    forall i | 0 <= i < |ids| ensures ids[i] in notes {
      assert ids[i] in ids && IsScheduled(notes, ids[i]);
    }
    forall n ensures n in StillScheduled(notes, set m | m in ids) <==> n in ids {
      assert n in ids ==> IsScheduled(notes, n);
    }
  }

  /** Updating the locked rows queues just them and reports them in the order of locking. */
  lemma LockedRowsAreQueued(s: Tables, limit: nat, notes: map<int, Note>, queued: seq<int>)
    requires var ids := RowIds(DueBatch(s, limit));
             && queued == RowIds(Sort(PickedKeys(s.notes, ids)))
             && notes == MarkQueued(s.notes, StillScheduled(s.notes, set n | n in ids))
    ensures var rows := RowIds(DueBatch(s, limit));
            && queued == rows && notes == MarkQueued(s.notes, set n | n in rows)
            && forall i :: 0 <= i < |queued| ==> queued[i] in notes
  {
    LockedRowsArePicked(s, limit);
    LockedRowsAreScheduled(s, limit);
    StillScheduledAreAll(s.notes, RowIds(DueBatch(s, limit)));
  }

  /** Queueing the locked rows and inserting their events makes the machine's tick. */
  lemma TickTables(s: Tables, tick: int, limit: nat, freshIds: seq<int>, s': Tables)
    requires tick !in s.ticks
    requires |DueBatch(s, limit)| <= |freshIds| && Distinct(freshIds) && forall e :: e in freshIds ==> e !in s.outbox
    requires var rows := RowIds(DueBatch(s, limit));
             && s'.notes == MarkQueued(s.notes, set n | n in rows)
             && s'.outbox == s.outbox + NewEvents(s'.notes, EmitOf(rows, freshIds), s.clock)
             && s'.ticks == s.ticks[tick := Ids(DueBatch(s, limit))] - {tick}
             && s' == s.(notes := s'.notes, outbox := s'.outbox, ticks := s'.ticks)
    ensures var emit := EmitOf(RowIds(DueBatch(s, limit)), freshIds);
            && CanCommitTick(TickLockStep(s, tick, limit), tick, emit)
            && s' == TickCommitStep(TickLockStep(s, tick, limit), tick, emit)
  {
    TickEffect(s, tick, limit, freshIds);
    assert s.ticks[tick := Ids(DueBatch(s, limit))] - {tick} == s.ticks;
  }

  /** A create in the machine, with other transactions between its look-up and its insert. */
  ghost function AfterCreate(s: Tables, meanwhile: Tables, call: int, req: Request, note: int, event: int): Tables
    requires call !in s.calls
  {
    var checked := CheckKeyStep(s, call, req);
    if checked.calls[call].Returned? then
      checked
    else
      var resumed := meanwhile.(calls := meanwhile.calls[call := checked.calls[call]]);
      RereadStep(InsertNoteStep(resumed, call, note, event), call)
  }

  /** How that create ends after its look-up has found nothing. */
  ghost function Resumed(s: Tables, call: int, req: Request, immediate: bool, note: int, event: int): Tables {
    var row := NoteOf(req, immediate, s.clock);
    var taken := if req.key.Some? then Existing(s.notes, req.user, req.key.value) else None;
    if taken.Some? then
      s.(calls := s.calls[call := if Looked(req.key) then Returned(req, taken.value, false) else Raised(req)])
    else
      s.(notes := s.notes[note := row],
         outbox := if immediate then s.outbox[event := NewEvent(note, row, s.clock)] else s.outbox,
         calls := s.calls[call := Returned(req, note, true)])
  }

  /** How it ends, branch by branch. */
  ghost function Ended(s: Tables, meanwhile: Tables, call: int, req: Request, note: int, event: int): Tables {
    var found := if Looked(req.key) then Existing(s.notes, req.user, req.key.value) else None;
    if found.Some? then
      s.(calls := s.calls[call := Returned(req, found.value, false)])
    else
      Resumed(meanwhile, call, req, IsImmediate(s.clock, req.scheduledAt), note, event)
  }

  /** The branches are those of the machine. */
  lemma CreateBranches(s: Tables, meanwhile: Tables, call: int, req: Request, note: int, event: int)
    requires call !in s.calls && note !in meanwhile.notes && event !in meanwhile.outbox
    ensures AfterCreate(s, meanwhile, call, req, note, event) == Ended(s, meanwhile, call, req, note, event)
  {
    if !Looked(req.key) || Existing(s.notes, req.user, req.key.value).None? {
      ResumedCreate(meanwhile, call, req, IsImmediate(s.clock, req.scheduledAt), note, event);
    }
  }

  /** Only an empty key makes a create raise, and only if the key is taken at the insert. */
  lemma RaisesIffEmptyKeyIsTaken(s: Tables, meanwhile: Tables, call: int, req: Request, note: int, event: int)
    ensures var r := Ended(s, meanwhile, call, req, note, event).calls[call];
            && (r.Returned? || r.Raised?)
            && (r.Raised? <==> req.key == Some("") && exists n :: HasKey(meanwhile.notes, n, req.user, ""))
  {
    ExistingHasKey(meanwhile.notes, req.user, "");
  }

  lemma ResumedCreate(s: Tables, call: int, req: Request, immediate: bool, note: int, event: int)
    requires note !in s.notes && event !in s.outbox
    ensures RereadStep(InsertNoteStep(s.(calls := s.calls[call := Checked(req, immediate)]), call, note, event), call)
         == Resumed(s, call, req, immediate, note, event)
  {
    var checked, calls := Checked(req, immediate), s.calls;
    if req.key.Some? && Existing(s.notes, req.user, req.key.value).Some? {
      var taken := Existing(s.notes, req.user, req.key.value).value;
      OverwriteCall(calls, call, checked, Violated(req));
      OverwriteCall(calls, call, checked, Raised(req));
      OverwriteCall(calls, call, Violated(req), Returned(req, taken, false));
    } else {
      OverwriteCall(calls, call, checked, Returned(req, note, true));
    }
  }

  lemma OverwriteCall(calls: map<int, Call>, call: int, first: Call, second: Call)
    ensures calls[call := first][call := second] == calls[call := second]
  {
  }

  class NotificationsDb {
    var clock: int
    var notes: map<int, Note>
    var outbox: map<int, OutboxRow>
    var stream: seq<Message>
    var ticks: map<int, set<int>>
    var batches: map<int, Batch>

    /** How every create request so far has ended. */
    ghost var calls: map<int, Call>

    constructor (now: int)
      ensures View() == EmptyTables(now)
    {
      clock, notes, outbox, stream, ticks, batches := now, map[], map[], [], map[], map[];
      calls := map[];
    }

    function Rows(): Tables
      reads this
    {
      Tables(clock, notes, outbox, stream, map[], ticks, batches)
    }

    ghost function View(): Tables
      reads this
    {
      Rows().(calls := calls)
    }

    /** A request's transactions do not run alone: these are the tables as the others leave them. */
    method Await(meanwhile: Tables)
      modifies this
      ensures clock == meanwhile.clock && notes == meanwhile.notes && outbox == meanwhile.outbox
      ensures stream == meanwhile.stream && ticks == meanwhile.ticks && batches == meanwhile.batches
      ensures calls == meanwhile.calls
    {
      clock, notes, outbox, stream := meanwhile.clock, meanwhile.notes, meanwhile.outbox, meanwhile.stream;
      ticks, batches := meanwhile.ticks, meanwhile.batches;
      calls := meanwhile.calls;
    }

    method GetByIdempotencyKey(user: int, key: string) returns (found: Option<int>)
      requires KeysAreUnique(notes)
      ensures found == Existing(notes, user, key)
    {
      ExistingHasKey(notes, user, key);
      if n :| n in notes && HasKey(notes, n, user, key) {
        return Some(n);
      }
      return None;
    }

    /** The look-up, whatever other requests do before the insert, the insert, and the second look-up
        after a unique violation. For requests that the schema accepts the call always returns. */
    method CreateNotification(ghost call: int, req: Request, meanwhile: Tables, freshNote: int, freshEvent: int)
        returns (r: Call)
      requires KeysAreUnique(notes) && call !in calls
      requires KeysAreUnique(meanwhile.notes) && call !in meanwhile.calls
      requires freshNote !in meanwhile.notes && freshEvent !in meanwhile.outbox
      modifies this
      ensures View() == Ended(old(View()), meanwhile, call, req, freshNote, freshEvent)
      ensures call in calls && r == calls[call]
    {
      var existing := LookUp(call, req);
      if existing.Some? {
        return Returned(req, existing.value, false);
      }
      var immediate := req.scheduledAt.None? || req.scheduledAt.value <= clock;
      Await(meanwhile);
      r := InsertOrReread(call, req, immediate, freshNote, freshEvent);
    }

    /** The first half of a create: a key that is not empty may be taken already. */
    method LookUp(ghost call: int, req: Request) returns (existing: Option<int>)
      requires KeysAreUnique(notes)
      modifies this`calls
      ensures existing == if Looked(req.key) then Existing(notes, req.user, req.key.value) else None
      ensures calls == if existing.Some? then old(calls)[call := Returned(req, existing.value, false)] else old(calls)
    {
      existing := None;
      if req.key.Some? && req.key.value != "" {
        existing := GetByIdempotencyKey(req.user, req.key.value);
      }
      if existing.Some? {
        calls := calls[call := Returned(req, existing.value, false)];
      }
    }

    /** The second half of a create: the insert, and after a violation the second look-up. */
    method InsertOrReread(ghost call: int, req: Request, immediate: bool, freshNote: int, freshEvent: int)
        returns (r: Call)
      requires KeysAreUnique(notes)
      modifies this`notes, this`outbox, this`calls
      ensures View() == Resumed(old(View()), call, req, immediate, freshNote, freshEvent)
      ensures call in calls && r == calls[call]
    {
      if req.key.Some? {
        ExistingHasKey(notes, req.user, req.key.value);
      }
      var violated := InsertNotification(req, immediate, freshNote, freshEvent);
      r := Returned(req, freshNote, true);
      if violated {
        r := Raised(req);
        if req.key.Some? && req.key.value != "" {
          var existing := GetByIdempotencyKey(req.user, req.key.value);
          if existing.Some? {
            r := Returned(req, existing.value, false);
          }
        }
      }
      calls := calls[call := r];
    }

    /** The insert and, for an immediate notification, its event, in one transaction that the unique
        index may refuse. */
    method InsertNotification(req: Request, immediate: bool, freshNote: int, freshEvent: int) returns (violated: bool)
      modifies this`notes, this`outbox
      ensures violated <==> req.key.Some? && exists n :: HasKey(old(notes), n, req.user, req.key.value)
      ensures violated ==> notes == old(notes) && outbox == old(outbox)
      ensures !violated ==>
        var row := NoteOf(req, immediate, clock);
        && notes == old(notes)[freshNote := row]
        && outbox == if immediate then old(outbox)[freshEvent := NewEvent(freshNote, row, clock)] else old(outbox)
    {
      if req.key.Some? && exists n :: n in notes && HasKey(notes, n, req.user, req.key.value) {
        return true;
      }
      var status := if immediate then Created else Scheduled;
      var note := Note(req.topic, req.payload, req.scheduledAt, status, req.user, req.key, clock);
      notes := notes[freshNote := note];
      if note.status.Created? {
        outbox := outbox[freshEvent := NewEvent(freshNote, note, clock)];
      }
      return false;
    }

    /** The row is read and checked first; the update waits until no open tick holds the row, and then
        decides by the status it finds. */
    method CancelNotification(note: int, user: int, isAdmin: bool, meanwhile: Tables) returns (r: Result<Note>)
      requires note !in Locked(meanwhile.ticks)
      modifies this
      ensures var mayCancel := note in old(notes) && (old(notes)[note].createdBy == user || isAdmin)
                               && old(notes)[note].status.Scheduled?;
              && View() == (if mayCancel then CancelStep(meanwhile, note) else old(View()))
              && (r.Ok? <==> mayCancel && IsScheduled(meanwhile.notes, note))
              && (r.Ok? ==> note in notes && r.value == notes[note] && r.value.status.Cancelled?)
      ensures r == Err(NotFound) <==> note !in old(notes)
      ensures r == Err(Forbidden) <==> note in old(notes) && old(notes)[note].createdBy != user && !isAdmin
    {
      if note !in notes {
        return Err(NotFound);
      }
      if notes[note].createdBy != user && !isAdmin {
        return Err(Forbidden);
      }
      if !notes[note].status.Scheduled? {
        return Err(Conflict);
      }
      Await(meanwhile);
      if note !in notes || !notes[note].status.Scheduled? {
        return Err(Conflict);
      }
      notes := notes[note := notes[note].(status := Cancelled)];
      return Ok(notes[note]);
    }

    /** One update of the given rows: those that are still scheduled become queued and are reported, each
        once, by time and id; every other row stays as it is. */
    method MarkQueuedByIds(ids: seq<int>) returns (queued: seq<int>)
      requires forall n :: IsScheduled(notes, n) ==> notes[n].scheduledAt.Some?
      modifies this`notes
      ensures notes.Keys == old(notes).Keys
      ensures forall n :: n in notes ==>
                notes[n] == if n in ids && IsScheduled(old(notes), n)
                            then old(notes)[n].(status := Queued) else old(notes)[n]
      ensures forall n :: n in queued <==> n in ids && IsScheduled(old(notes), n)
      ensures forall i, j :: 0 <= i < j < |queued| ==>
                Lt(TimeKey(old(notes), queued[i]), TimeKey(old(notes), queued[j]))
    {
      SortedPicks(notes, ids);
      queued := RowIds(Sort(PickedKeys(notes, ids)));
      notes := MarkQueued(notes, StillScheduled(notes, set n | n in ids));
    }

    /** The first half of a tick: the earliest due free rows are locked and all of them queued. */
    method LockAndMark(tick: int, limit: nat) returns (queued: seq<int>)
      requires tick !in ticks
      requires forall n :: IsScheduled(notes, n) ==> notes[n].scheduledAt.Some?
      modifies this`notes, this`ticks
      ensures queued == RowIds(DueBatch(old(Rows()), limit))
      ensures notes == MarkQueued(old(notes), set n | n in queued)
      ensures forall i :: 0 <= i < |queued| ==> queued[i] in notes
      ensures ticks == old(ticks)[tick := Ids(DueBatch(old(Rows()), limit))]
    {
      ghost var before := Rows();
      var batch := DueBatch(Rows(), limit);
      ticks := ticks[tick := Ids(batch)];
      queued := MarkQueuedByIds(RowIds(batch));
      ReportedAreSortedPicks(before.notes, RowIds(batch), queued);
      QueuedIsMarkQueued(before.notes, notes, RowIds(batch));
      LockedRowsAreQueued(before, limit, notes, queued);
    }

    method EmitEvents(queued: seq<int>, freshIds: seq<int>)
      requires |queued| <= |freshIds| && forall i :: 0 <= i < |queued| ==> queued[i] in notes
      modifies this`outbox
      ensures outbox == old(outbox) + NewEvents(notes, EmitOf(queued, freshIds), clock)
    {
      WithNoEvents(outbox, notes, freshIds, clock);
      for i := 0 to |queued|
        invariant notes == old(notes) && clock == old(clock)
        invariant outbox == WithEvents(old(outbox), notes, queued[..i], freshIds, clock)
      {
        WithOneMoreEvent(old(outbox), notes, queued, freshIds, i, clock);
        outbox := outbox[freshIds[i] := NewEvent(queued[i], notes[queued[i]], clock)];
      }
      assert queued[..|queued|] == queued;
    }

    /** The earliest due free rows are queued and each gets its own event under a fresh id; nothing else
        changes, and no lock is left behind: the tick is the machine's lock and commit. */
    method RunOneTick(tick: int, limit: nat, freshIds: seq<int>) returns (r: TickResult)
      requires tick !in ticks
      requires forall n :: IsScheduled(notes, n) ==> notes[n].scheduledAt.Some?
      requires |DueBatch(Rows(), limit)| <= |freshIds| && Distinct(freshIds)
      requires forall e :: e in freshIds ==> e !in outbox
      modifies this`notes, this`outbox, this`ticks
      ensures var emit := EmitOf(RowIds(DueBatch(old(Rows()), limit)), freshIds);
              && CanCommitTick(TickLockStep(old(Rows()), tick, limit), tick, emit)
              && Rows() == TickCommitStep(TickLockStep(old(Rows()), tick, limit), tick, emit)
      ensures r.picked == |DueBatch(old(Rows()), limit)|
      ensures r.due == |DueKeys(Rows())| && r.backlog == |ScheduledKeys(notes)|
    {
      ghost var before := Rows();
      var queued := LockAndMark(tick, limit);
      EmitEvents(queued, freshIds);
      ticks := ticks - {tick};
      TickTables(before, tick, limit, freshIds, Rows());
      var dueCount := CountDueScheduled();
      var backlog := CountScheduled();
      r := TickResult(|queued|, dueCount, backlog);
    }

    method CountDueScheduled() returns (n: nat)
      ensures n == |DueKeys(Rows())|
    {
      n := |DueKeys(Rows())|;
    }

    method CountScheduled() returns (n: nat)
      ensures n == |ScheduledKeys(notes)|
    {
      n := |ScheduledKeys(notes)|;
    }

    method MarkPublished(event: int)
      requires event in outbox
      modifies this`outbox
      ensures outbox == old(outbox)[event := Marked(old(outbox)[event], Acked)]
    {
      var row := outbox[event];
      outbox := outbox[event := row.(published := true, publishAttempts := row.publishAttempts + 1, lastError := None)];
    }

    method MarkFailed(event: int, error: string)
      requires event in outbox
      modifies this`outbox
      ensures outbox == old(outbox)[event := Marked(old(outbox)[event], Unacked(error))]
    {
      var row, cut := outbox[event], if |error| > 2000 then error[..2000] else error;
      outbox := outbox[event := row.(publishAttempts := row.publishAttempts + 1, lastError := Some(cut))];
    }

    /** The loop over the locked rows, one reply of the stream for each. */
    method PublishRows(ghost s: Tables, batch: int, rows: seq<int>, replies: seq<Reply>)
      requires CanPublish(s, batch, rows, replies)
      requires s.outbox == outbox && s.stream == stream
      modifies this`outbox, this`stream
      ensures stream == PublishAll(s, batch, replies).stream
      ensures outbox == OutboxAfter(s, batch, replies)
    {
      for i := 0 to |rows|
        invariant stream == PublishAll(s, batch, replies[..i]).stream
        invariant outbox == OutboxAfter(s, batch, replies[..i])
      {
        var event := rows[i];
        MirrorNext(s, batch, rows, replies, i);
        if !replies[i].Refused? {
          stream := stream + [Message(event, outbox[event].body)];
        }
        if replies[i].Acked? {
          MarkPublished(event);
        } else {
          MarkFailed(event, replies[i].error);
        }
      }
      assert replies[..|rows|] == replies;
    }

    /** The oldest unlocked unpublished rows are tried, each with its own reply, and the transaction
        commits: the batch is the machine's lock, publishes and commit. */
    method PublishBatch(batch: int, limit: nat, replies: seq<Reply>) returns (unpublished: nat)
      requires batch !in batches && |replies| == |OldestUnpublished(View(), limit)|
      modifies this`outbox, this`stream
      ensures var rows := RowIds(OldestUnpublished(old(View()), limit));
              && CanLockBatch(old(View()), batch, rows)
              && View() == BatchCommitStep(PublishAll(BatchLockStep(old(View()), batch, rows), batch, replies), batch)
              && (forall i :: 0 <= i < |rows| ==>
                    && rows[i] in outbox && rows[i] in old(outbox)
                    && outbox[rows[i]] == Marked(old(outbox)[rows[i]], replies[i])
                    && (!replies[i].Refused? ==> OnStream(stream, rows[i])))
      ensures unpublished == |set e | e in outbox && !outbox[e].published|
    {
      ghost var before := View();
      OldestCanBeLocked(before, batch, limit);
      var rows := RowIds(OldestUnpublished(Tables(clock, notes, outbox, stream, map[], ticks, batches), limit));
      PublishRows(BatchLockStep(before, batch, rows), batch, rows, replies);
      BatchPublished(before, batch, rows, replies);
      unpublished := |set e | e in outbox && !outbox[e].published|;
    }
  }

  /** The rows to publish are all different, unpublished and free. */
  lemma OldestCanBeLocked(s: Tables, batch: int, limit: nat)
    requires batch !in s.batches
    ensures CanLockBatch(s, batch, RowIds(OldestUnpublished(s, limit)))
    ensures OldestUnpublished(s.(calls := map[]), limit) == OldestUnpublished(s, limit)
  {
    var keys, oldest := UnpublishedKeys(s), OldestUnpublished(s, limit);
    var rows := RowIds(oldest);
    SortSorts(keys);
    assert UnpublishedKeys(s.(calls := map[])) == keys;
    forall i | 0 <= i < |oldest| ensures IsUnpublishedKey(s, oldest[i]) {
      assert Sort(keys)[i] == oldest[i];
      assert oldest[i] in keys;
    }
    forall i, j | 0 <= i < j < |rows| ensures rows[i] != rows[j] {
      assert Lt(oldest[i], oldest[j]);
      assert IsUnpublishedKey(s, oldest[i]) && IsUnpublishedKey(s, oldest[j]);
    }
    forall e | e in rows ensures e in s.outbox && !s.outbox[e].published && e !in HeldRows(s.batches) {
      var i :| 0 <= i < |rows| && rows[i] == e;
      assert IsUnpublishedKey(s, oldest[i]);
    }
  }

  predicate IsUnpublishedKey(s: Tables, k: Key) {
    k.1 in s.outbox && !s.outbox[k.1].published && k.1 !in HeldRows(s.batches) && k.0 == s.outbox[k.1].createdAt
  }

  /** No free unpublished row that is older than a chosen one is passed over. */
  lemma OldestComeFirst(s: Tables, limit: nat, chosen: Key, other: Key)
    requires chosen in OldestUnpublished(s, limit) && other in UnpublishedKeys(s)
    requires other !in OldestUnpublished(s, limit)
    ensures Lt(chosen, other) && |OldestUnpublished(s, limit)| == limit
  {
    FirstKeysAreTaken(UnpublishedKeys(s), limit);
    TakingSmallest(UnpublishedKeys(s), limit, chosen);
    SortSorts(UnpublishedKeys(s));
  }

  /** The tables after the loop, committed. */
  lemma BatchPublished(s: Tables, batch: int, rows: seq<int>, replies: seq<Reply>)
    requires CanLockBatch(s, batch, rows) && |replies| == |rows|
    ensures var locked := BatchLockStep(s, batch, rows);
            var published := PublishAll(locked, batch, replies);
            && BatchCommitStep(published, batch)
                 == s.(outbox := OutboxAfter(locked, batch, replies), stream := published.stream)
            && forall i :: 0 <= i < |rows| ==>
                 && rows[i] in s.outbox && rows[i] in OutboxAfter(locked, batch, replies)
                 && OutboxAfter(locked, batch, replies)[rows[i]] == Marked(s.outbox[rows[i]], replies[i])
                 && (!replies[i].Refused? ==> OnStream(published.stream, rows[i]))
  {
    var locked := BatchLockStep(s, batch, rows);
    var published := PublishAll(locked, batch, replies);
    assert replies[..|rows|] == replies;
    PublishFacts(locked, batch, rows, replies, |rows|);
    assert published.batches - {batch} == s.batches;
    forall i | 0 <= i < |rows| ensures RowMarked(locked, published, batch, rows[i], replies[i]) {
    }
  }

  /** A batch that has just locked its rows. */
  predicate CanPublish(s: Tables, batch: int, rows: seq<int>, replies: seq<Reply>) {
    && |replies| == |rows| && Distinct(rows)
    && (forall e :: e in rows ==> e in s.outbox)
    && batch in s.batches && s.batches[batch] == Batch(rows, map[])
  }

  /** After i replies the first i rows are done and the rest is still to do. */
  predicate PublishedTo(s: Tables, batch: int, rows: seq<int>, replies: seq<Reply>, i: nat)
    requires i <= |rows| && |replies| == |rows|
  {
    var s' := PublishAll(s, batch, replies[..i]);
    && s' == s.(stream := s'.stream, batches := s'.batches)
    && batch in s.batches && batch in s'.batches
    && s'.batches == s.batches[batch := s'.batches[batch]]
    && s'.batches[batch].todo == rows[i..]
    && forall e :: e in s'.batches[batch].done ==> e in rows[..i]
  }

  /** Each of the first i rows is marked by its own reply, and stored unless it was refused. */
  ghost predicate MarkedTo(s: Tables, batch: int, rows: seq<int>, replies: seq<Reply>, i: nat)
    requires i <= |rows| && |replies| == |rows|
  {
    var s' := PublishAll(s, batch, replies[..i]);
    && batch in s'.batches
    && forall k :: 0 <= k < i ==> RowMarked(s, s', batch, rows[k], replies[k])
  }

  ghost predicate RowMarked(s: Tables, s': Tables, batch: int, e: int, reply: Reply)
    requires batch in s'.batches
  {
    && e in s.outbox && e in s'.batches[batch].done
    && s'.batches[batch].done[e] == Marked(s.outbox[e], reply)
    && (!reply.Refused? ==> OnStream(s'.stream, e))
  }

  lemma PublishedToNext(s: Tables, batch: int, rows: seq<int>, replies: seq<Reply>, i: nat)
    requires i < |rows| && |replies| == |rows| && rows[i] in s.outbox
    requires PublishedTo(s, batch, rows, replies, i)
    ensures PublishedTo(s, batch, rows, replies, i + 1)
    ensures var before, after := PublishAll(s, batch, replies[..i]), PublishAll(s, batch, replies[..i + 1]);
            && after.stream == Stored(before.stream, rows[i], s.outbox[rows[i]], replies[i])
            && after.batches[batch].done == before.batches[batch].done[rows[i] := Marked(s.outbox[rows[i]], replies[i])]
  {
    assert replies[..i + 1][..i] == replies[..i];
    assert rows[i..][1..] == rows[i + 1..];
    assert rows[..i + 1] == rows[..i] + [rows[i]];
  }

  /** The rewritten rows over the committed ones, as the open transaction sees them. */
  function OutboxAfter(s: Tables, batch: int, replies: seq<Reply>): map<int, OutboxRow> {
    var s' := PublishAll(s, batch, replies);
    if batch in s'.batches then s.outbox + s'.batches[batch].done else s.outbox
  }

  lemma {:induction false} PublishesTo(s: Tables, batch: int, rows: seq<int>, replies: seq<Reply>, i: nat)
    requires CanPublish(s, batch, rows, replies) && i <= |rows|
    ensures PublishedTo(s, batch, rows, replies, i)
  {
    if i == 0 {
      NothingPublished(s, batch, rows, replies);
    } else {
      PublishesTo(s, batch, rows, replies, i - 1);
      assert rows[i - 1] in rows;
      PublishedToNext(s, batch, rows, replies, i - 1);
    }
  }

  lemma {:induction false} PublishFacts(s: Tables, batch: int, rows: seq<int>, replies: seq<Reply>, i: nat)
    requires CanPublish(s, batch, rows, replies) && i <= |rows|
    ensures PublishedTo(s, batch, rows, replies, i) && MarkedTo(s, batch, rows, replies, i)
  {
    PublishesTo(s, batch, rows, replies, i);
    if i == 0 {
      NothingPublished(s, batch, rows, replies);
    } else {
      PublishFacts(s, batch, rows, replies, i - 1);
      assert rows[i - 1] in rows;
      MarkedToNext(s, batch, rows, replies, i - 1);
    }
  }

  lemma NothingPublished(s: Tables, batch: int, rows: seq<int>, replies: seq<Reply>)
    requires CanPublish(s, batch, rows, replies)
    ensures PublishedTo(s, batch, rows, replies, 0) && MarkedTo(s, batch, rows, replies, 0)
  {
    assert replies[..0] == [] && rows[0..] == rows;
    assert s.batches[batch := s.batches[batch]] == s.batches;
  }

  lemma MirrorNext(s: Tables, batch: int, rows: seq<int>, replies: seq<Reply>, i: nat)
    requires CanPublish(s, batch, rows, replies) && i < |rows|
    ensures var e, before := rows[i], OutboxAfter(s, batch, replies[..i]);
            && e in s.outbox && e in before && before[e] == s.outbox[e]
            && OutboxAfter(s, batch, replies[..i + 1]) == before[e := Marked(s.outbox[e], replies[i])]
            && PublishAll(s, batch, replies[..i + 1]).stream
               == Stored(PublishAll(s, batch, replies[..i]).stream, e, s.outbox[e], replies[i])
  {
    var e, before, after := rows[i], PublishAll(s, batch, replies[..i]), PublishAll(s, batch, replies[..i + 1]);
    assert e in rows && e !in rows[..i];
    PublishFacts(s, batch, rows, replies, i);
    PublishedToNext(s, batch, rows, replies, i);
    assert batch in before.batches && batch in after.batches && e !in before.batches[batch].done;
    OverlayNext(s.outbox, before.batches[batch].done, e, Marked(s.outbox[e], replies[i]));
  }

  lemma OverlayNext(outbox: map<int, OutboxRow>, done: map<int, OutboxRow>, e: int, row: OutboxRow)
    ensures outbox + done[e := row] == (outbox + done)[e := row]
  {
  }

  lemma MarkedToNext(s: Tables, batch: int, rows: seq<int>, replies: seq<Reply>, i: nat)
    requires i < |rows| && |replies| == |rows| && rows[i] in s.outbox && Distinct(rows)
    requires PublishedTo(s, batch, rows, replies, i) && MarkedTo(s, batch, rows, replies, i)
    ensures MarkedTo(s, batch, rows, replies, i + 1)
  {
    PublishedToNext(s, batch, rows, replies, i);
    var before, after := PublishAll(s, batch, replies[..i]), PublishAll(s, batch, replies[..i + 1]);
    var more := if replies[i].Refused? then [] else [Message(rows[i], s.outbox[rows[i]].body)];
    assert after.stream == before.stream + more;
    assert !replies[i].Refused? ==> after.stream[|before.stream|].event == rows[i];
    forall k | 0 <= k < i ensures RowMarked(s, after, batch, rows[k], replies[k]) {
      assert RowMarked(s, before, batch, rows[k], replies[k]);
      if !replies[k].Refused? {
        StreamGrows(before.stream, more, rows[k]);
      }
    }
  }
}
