/** What the notifications service guarantees over every interleaving of creates, cancels, ticks and
    publisher batches, aborted transactions included. */
module Outbox {
  import opened Options
  import opened Keyset
  import opened Notifications

  function EventsOf(outbox: map<int, OutboxRow>, note: int): set<int> {
    set e | e in outbox && outbox[e].body.note == note
  }

  predicate IsEmitted(status: NoteStatus) {
    status.Created? || status.Queued?
  }

  function EventCount(status: NoteStatus): nat {
    if IsEmitted(status) then 1 else 0
  }

  /** Exactly one outbox event for a created or queued notification, none for a scheduled or
      cancelled one. */
  ghost predicate OneEventPerEmittedNote(notes: map<int, Note>, outbox: map<int, OutboxRow>) {
    forall n :: n in notes ==> |EventsOf(outbox, n)| == EventCount(notes[n].status)
  }

  predicate EventMatches(notes: map<int, Note>, row: OutboxRow) {
    && row.body.note in notes
    && IsEmitted(notes[row.body.note].status)
    && row.body == BodyOf(row.body.note, notes[row.body.note])
  }

  /** Every event carries the content of an emitted notification. */
  ghost predicate EventsMatchNotes(notes: map<int, Note>, outbox: map<int, OutboxRow>) {
    forall e :: e in outbox ==> EventMatches(notes, outbox[e])
  }

  predicate IsScheduled(notes: map<int, Note>, n: int) {
    n in notes && notes[n].status.Scheduled?
  }

  /** Only notifications with a time are scheduled, and open ticks hold disjoint sets of them. */
  ghost predicate TicksHoldScheduledRows(notes: map<int, Note>, ticks: map<int, set<int>>) {
    && (forall n :: IsScheduled(notes, n) ==> notes[n].scheduledAt.Some?)
    && (forall t, n :: t in ticks && n in ticks[t] ==> IsScheduled(notes, n))
    && (forall t1, t2, n :: t1 in ticks && t2 in ticks && n in ticks[t1] && n in ticks[t2] ==> t1 == t2)
  }

  ghost predicate OnStream(stream: seq<Message>, event: int) {
    exists i :: 0 <= i < |stream| && stream[i].event == event
  }

  ghost predicate BatchHoldsRow(outbox: map<int, OutboxRow>, stream: seq<Message>, b: Batch, e: int) {
    && e in outbox && !outbox[e].published
    && (e in b.done ==>
          && e !in b.todo
          && b.done[e].body == outbox[e].body
          && (b.done[e].published ==> OnStream(stream, e)))
  }

  ghost predicate BatchOk(outbox: map<int, OutboxRow>, stream: seq<Message>, b: Batch) {
    Distinct(b.todo) && forall e :: e in Held(b) ==> BatchHoldsRow(outbox, stream, b, e)
  }

  /** Open batches hold disjoint sets of unpublished events. */
  ghost predicate BatchesHoldUnpublishedRows(
      outbox: map<int, OutboxRow>, stream: seq<Message>, batches: map<int, Batch>) {
    && (forall b :: b in batches ==> BatchOk(outbox, stream, batches[b]))
    && (forall b1, b2 :: b1 in batches && b2 in batches && b1 != b2 ==> Held(batches[b1]) !! Held(batches[b2]))
  }

  /** Nothing is on the stream without its outbox row, and what is marked published is on it. */
  ghost predicate StreamMatchesOutbox(outbox: map<int, OutboxRow>, stream: seq<Message>) {
    && (forall i :: 0 <= i < |stream| ==> stream[i].event in outbox && stream[i].body == outbox[stream[i].event].body)
    && (forall e :: e in outbox && outbox[e].published ==> OnStream(stream, e))
  }

  /** The unique index on user and key. */
  ghost predicate KeysAreUnique(notes: map<int, Note>) {
    forall m, n, user, key :: HasKey(notes, m, user, key) && HasKey(notes, n, user, key) ==> m == n
  }

  function CreatorsOf(calls: map<int, Call>, note: int): set<int> {
    set c | c in calls && calls[c].Returned? && calls[c].created && calls[c].note == note
  }

  ghost predicate CallMatches(notes: map<int, Note>, call: Call) {
    match call
    case Returned(req, n, created) =>
      && n in notes
      && notes[n].createdBy == req.user
      && notes[n].key == req.key
      && (!created ==> req.key.Some?)
    case Violated(req) =>
      Looked(req.key) && exists n :: HasKey(notes, n, req.user, req.key.value)
    case Checked(req, immediate) =>
      Accepted(req) && (!immediate ==> req.scheduledAt.Some?)
    case Raised(_) =>
      false
  }

  /** A call has returned a row with its own user and key and never raises, and exactly one call has
      created each row. */
  ghost predicate CallsMatchNotes(notes: map<int, Note>, calls: map<int, Call>) {
    && (forall c :: c in calls ==> CallMatches(notes, calls[c]))
    && (forall n :: n in notes ==> |CreatorsOf(calls, n)| == 1)
  }

  ghost predicate Valid(s: Tables) {
    && OneEventPerEmittedNote(s.notes, s.outbox)
    && EventsMatchNotes(s.notes, s.outbox)
    && TicksHoldScheduledRows(s.notes, s.ticks)
    && BatchesHoldUnpublishedRows(s.outbox, s.stream, s.batches)
    && StreamMatchesOutbox(s.outbox, s.stream)
    && KeysAreUnique(s.notes)
    && CallsMatchNotes(s.notes, s.calls)
  }

  /** The lifecycle of one row: scheduled becomes queued or cancelled, and nothing else changes. */
  predicate MayBecome(before: Note, after: Note) {
    && after == before.(status := after.status)
    && (after.status == before.status
        || (before.status.Scheduled? && (after.status.Queued? || after.status.Cancelled?)))
  }

  predicate EventKept(outbox: map<int, OutboxRow>, e: int, row: OutboxRow) {
    e in outbox && outbox[e].body == row.body && (row.published ==> outbox[e].published)
  }

  /** Rows, events and messages stay; only statuses move and only along the lifecycle. */
  ghost predicate Extends(s: Tables, s': Tables) {
    && s.clock <= s'.clock
    && (forall n :: n in s.notes ==> n in s'.notes && MayBecome(s.notes[n], s'.notes[n]))
    && (forall e :: e in s.outbox ==> EventKept(s'.outbox, e, s.outbox[e]))
    && s.stream <= s'.stream
  }

  lemma ExtendsIsTransitive(s0: Tables, s1: Tables, s2: Tables)
    requires Extends(s0, s1) && Extends(s1, s2)
    ensures Extends(s0, s2)
  {
    forall n | n in s0.notes ensures n in s2.notes && MayBecome(s0.notes[n], s2.notes[n]) {
      assert MayBecome(s0.notes[n], s1.notes[n]) && MayBecome(s1.notes[n], s2.notes[n]);
    }
    forall e | e in s0.outbox ensures EventKept(s2.outbox, e, s0.outbox[e]) {
      assert EventKept(s1.outbox, e, s0.outbox[e]) && EventKept(s2.outbox, e, s1.outbox[e]);
    }
  }

  /* ---------- Creating ---------- */

  lemma ExistingHasKey(notes: map<int, Note>, user: int, key: string)
    ensures var found := Existing(notes, user, key);
            && (found.Some? ==> HasKey(notes, found.value, user, key))
            && (found.None? ==> forall n :: !HasKey(notes, n, user, key))
  {
  }

  lemma CallMovesOn(notes: map<int, Note>, calls: map<int, Call>, c: int, call: Call)
    requires CallsMatchNotes(notes, calls) && CallMatches(notes, call)
    requires c in calls ==> !calls[c].Returned?
    requires call.Returned? ==> !call.created
    ensures CallsMatchNotes(notes, calls[c := call])
  {
    forall n | n in notes ensures |CreatorsOf(calls[c := call], n)| == 1 {
      assert CreatorsOf(calls[c := call], n) == CreatorsOf(calls, n);
    }
  }

  lemma CheckKeyKeepsValid(s: Tables, c: int, req: Request)
    requires Valid(s) && Accepted(req)
    ensures Valid(CheckKeyStep(s, c, req)) && Extends(s, CheckKeyStep(s, c, req))
  {
    if c !in s.calls {
      if Looked(req.key) {
        ExistingHasKey(s.notes, req.user, req.key.value);
      }
      CallMovesOn(s.notes, s.calls, c, CheckKeyStep(s, c, req).calls[c]);
    }
  }

  /** The read after a unique violation always finds the row. */
  lemma RereadKeepsValid(s: Tables, c: int)
    requires Valid(s)
    ensures Valid(RereadStep(s, c)) && Extends(s, RereadStep(s, c))
    ensures c in s.calls && s.calls[c].Violated? ==> RereadStep(s, c).calls[c].Returned?
  {
    if c in s.calls && s.calls[c].Violated? {
      var req := s.calls[c].req;
      assert CallMatches(s.notes, s.calls[c]);
      ExistingHasKey(s.notes, req.user, req.key.value);
      CallMovesOn(s.notes, s.calls, c, RereadStep(s, c).calls[c]);
    }
  }

  lemma InsertKeepsValid(s: Tables, c: int, note: int, event: int)
    requires Valid(s)
    ensures Valid(InsertNoteStep(s, c, note, event)) && Extends(s, InsertNoteStep(s, c, note, event))
  {
    if c in s.calls && s.calls[c].Checked? && note !in s.notes && event !in s.outbox {
      var req := s.calls[c].req;
      assert CallMatches(s.notes, s.calls[c]);
      if req.key.Some? {
        ExistingHasKey(s.notes, req.user, req.key.value);
      }
      if req.key.Some? && Existing(s.notes, req.user, req.key.value).Some? {
        CallMovesOn(s.notes, s.calls, c, InsertNoteStep(s, c, note, event).calls[c]);
      } else {
        InsertedRowKeepsValid(s, c, note, event);
      }
    }
  }

  /** Of the service method alone, for any tables: an insert makes its call raise exactly when the key
      is empty and taken. */
  lemma InsertRaisesIffEmptyKeyIsTaken(s: Tables, c: int, note: int, event: int)
    requires c in s.calls && s.calls[c].Checked? && note !in s.notes && event !in s.outbox
    ensures InsertNoteStep(s, c, note, event).calls[c].Raised?
       <==> s.calls[c].req.key == Some("") && exists n :: HasKey(s.notes, n, s.calls[c].req.user, "")
  {
    var req := s.calls[c].req;
    if req.key.Some? {
      ExistingHasKey(s.notes, req.user, req.key.value);
    }
  }

  lemma InsertedRowKeepsValid(s: Tables, c: int, note: int, event: int)
    requires Valid(s) && c in s.calls && s.calls[c].Checked? && note !in s.notes && event !in s.outbox
    requires var req := s.calls[c].req; req.key.Some? ==> Existing(s.notes, req.user, req.key.value).None?
    ensures Valid(InsertNoteStep(s, c, note, event)) && Extends(s, InsertNoteStep(s, c, note, event))
  {
    var req, s' := s.calls[c].req, InsertNoteStep(s, c, note, event);
    var row := NoteOf(req, s.calls[c].immediate, s.clock);
    assert CallMatches(s.notes, s.calls[c]);
    InsertKeepsCalls(s, c, note, row);
    InsertKeepsEvents(s, note, row, event, s.clock);
    UnpublishedRowsChangeNothing(s.outbox, s'.outbox, s.stream, s.batches);
    assert TicksHoldScheduledRows(s'.notes, s.ticks) by {
      forall n | IsScheduled(s'.notes, n) ensures s'.notes[n].scheduledAt.Some? {
        assert n != note ==> IsScheduled(s.notes, n);
      }
      forall t, n | t in s.ticks && n in s.ticks[t] ensures IsScheduled(s'.notes, n) {
        assert IsScheduled(s.notes, n);
      }
    }
  }

  lemma InsertKeepsCalls(s: Tables, c: int, note: int, row: Note)
    requires CallsMatchNotes(s.notes, s.calls) && KeysAreUnique(s.notes) && note !in s.notes
    requires c in s.calls && s.calls[c].Checked?
    requires row.createdBy == s.calls[c].req.user && row.key == s.calls[c].req.key
    requires row.key.Some? ==> forall n :: !HasKey(s.notes, n, row.createdBy, row.key.value)
    ensures KeysAreUnique(s.notes[note := row])
    ensures CallsMatchNotes(s.notes[note := row], s.calls[c := Returned(s.calls[c].req, note, true)])
  {
    var notes, calls := s.notes[note := row], s.calls[c := Returned(s.calls[c].req, note, true)];
    assert forall n, user, key :: HasKey(s.notes, n, user, key) ==> HasKey(notes, n, user, key);
    assert forall n, user, key :: HasKey(notes, n, user, key) && n != note ==> HasKey(s.notes, n, user, key);
    forall d | d in calls ensures CallMatches(notes, calls[d]) {
      assert CallMatches(s.notes, s.calls[d]);
    }
    forall d | d in s.calls ensures d !in CreatorsOf(s.calls, note) {
      assert CallMatches(s.notes, s.calls[d]);
    }
    forall n | n in notes ensures |CreatorsOf(calls, n)| == 1 {
      assert CreatorsOf(calls, n) == if n == note then {c} else CreatorsOf(s.calls, n);
    }
  }

  lemma InsertKeepsEvents(s: Tables, note: int, row: Note, event: int, at: int)
    requires OneEventPerEmittedNote(s.notes, s.outbox) && EventsMatchNotes(s.notes, s.outbox)
    requires note !in s.notes && event !in s.outbox && (row.status.Created? || row.status.Scheduled?)
    ensures var notes := s.notes[note := row];
            var outbox := if row.status.Created? then s.outbox[event := NewEvent(note, row, at)] else s.outbox;
            OneEventPerEmittedNote(notes, outbox) && EventsMatchNotes(notes, outbox)
  {
    var notes := s.notes[note := row];
    var outbox := if row.status.Created? then s.outbox[event := NewEvent(note, row, at)] else s.outbox;
    forall e | e in s.outbox ensures s.outbox[e].body.note != note && EventMatches(notes, s.outbox[e]) {
      assert EventMatches(s.notes, s.outbox[e]);
    }
    forall n | n in notes ensures |EventsOf(outbox, n)| == EventCount(notes[n].status) {
      assert EventsOf(outbox, n)
          == if n != note then EventsOf(s.outbox, n) else if row.status.Created? then {event} else {};
    }
  }

  /** New unpublished events do not disturb batches and stream. */
  lemma UnpublishedRowsChangeNothing(
      outbox: map<int, OutboxRow>, outbox': map<int, OutboxRow>, stream: seq<Message>, batches: map<int, Batch>)
    requires BatchesHoldUnpublishedRows(outbox, stream, batches) && StreamMatchesOutbox(outbox, stream)
    requires forall e :: e in outbox ==> e in outbox' && outbox'[e] == outbox[e]
    requires forall e :: e in outbox' && e !in outbox ==> !outbox'[e].published
    ensures BatchesHoldUnpublishedRows(outbox', stream, batches) && StreamMatchesOutbox(outbox', stream)
  {
    forall b | b in batches ensures BatchOk(outbox', stream, batches[b]) {
      assert BatchOk(outbox, stream, batches[b]);
      forall e | e in Held(batches[b]) ensures BatchHoldsRow(outbox', stream, batches[b], e) {
        assert BatchHoldsRow(outbox, stream, batches[b], e);
      }
    }
  }

  /* ---------- Scheduling and cancelling ---------- */

  /** Statuses may move without disturbing keys and calls. */
  lemma KeysAndCallsSurvive(notes: map<int, Note>, notes': map<int, Note>, calls: map<int, Call>)
    requires KeysAreUnique(notes) && CallsMatchNotes(notes, calls)
    requires notes'.Keys == notes.Keys
    requires forall n :: n in notes ==> MayBecome(notes[n], notes'[n])
    ensures KeysAreUnique(notes') && CallsMatchNotes(notes', calls)
  {
    forall n, user, key ensures HasKey(notes', n, user, key) == HasKey(notes, n, user, key) {
      assert n in notes ==> MayBecome(notes[n], notes'[n]);
    }
    forall c | c in calls ensures CallMatches(notes', calls[c]) {
      assert CallMatches(notes, calls[c]);
      if calls[c].Returned? {
        assert MayBecome(notes[calls[c].note], notes'[calls[c].note]);
      } else if calls[c].Violated? {
        var n :| HasKey(notes, n, calls[c].req.user, calls[c].req.key.value);
        assert HasKey(notes', n, calls[c].req.user, calls[c].req.key.value);
      }
    }
  }

  lemma CancelKeepsValid(s: Tables, note: int)
    requires Valid(s)
    ensures Valid(CancelStep(s, note)) && Extends(s, CancelStep(s, note))
  {
    var s' := CancelStep(s, note);
    if s' != s {
      KeysAndCallsSurvive(s.notes, s'.notes, s.calls);
      forall t | t in s.ticks ensures note !in s.ticks[t] {
        assert note !in Locked(s.ticks);
      }
      forall e | e in s.outbox ensures s.outbox[e].body.note != note && EventMatches(s'.notes, s.outbox[e]) {
        assert EventMatches(s.notes, s.outbox[e]);
      }
    }
  }

  lemma BatchIsDueAndFree(s: Tables, limit: nat, n: int)
    requires n in Ids(DueBatch(s, limit))
    ensures IsScheduled(s.notes, n) && n !in Locked(s.ticks)
  {
    var free := Free(DueKeys(s), Locked(s.ticks));
    SortSorts(free);
    var k :| k in DueBatch(s, limit) && k.1 == n;
    assert k in Sort(free);
  }

  lemma TickLockKeepsValid(s: Tables, tick: int, limit: nat)
    requires Valid(s)
    ensures Valid(TickLockStep(s, tick, limit)) && Extends(s, TickLockStep(s, tick, limit))
  {
    if tick !in s.ticks {
      var rows := Ids(DueBatch(s, limit));
      forall n | n in rows ensures IsScheduled(s.notes, n) && n !in Locked(s.ticks) {
        BatchIsDueAndFree(s, limit, n);
      }
      AddTick(s.notes, s.ticks, tick, rows);
    }
  }

  lemma AddTick(notes: map<int, Note>, ticks: map<int, set<int>>, tick: int, rows: set<int>)
    requires TicksHoldScheduledRows(notes, ticks) && tick !in ticks
    requires forall n :: n in rows ==> IsScheduled(notes, n) && n !in Locked(ticks)
    ensures TicksHoldScheduledRows(notes, ticks[tick := rows])
  {
    forall t, n | t in ticks && n in ticks[t] ensures n in Locked(ticks) {
    }
  }

  lemma TickCommitKeepsValid(s: Tables, tick: int, emit: map<int, int>)
    requires Valid(s)
    ensures Valid(TickCommitStep(s, tick, emit)) && Extends(s, TickCommitStep(s, tick, emit))
  {
    if CanCommitTick(s, tick, emit) {
      var s' := TickCommitStep(s, tick, emit);
      forall e | e in emit ensures IsScheduled(s.notes, emit[e]) && emit[e] in s.ticks[tick] {
        assert emit[e] in Targets(emit);
      }
      forall n | n in s.notes ensures MayBecome(s.notes[n], s'.notes[n]) {
      }
      KeysAndCallsSurvive(s.notes, s'.notes, s.calls);
      UnpublishedRowsChangeNothing(s.outbox, s'.outbox, s.stream, s.batches);
      EmitKeepsEvents(s.notes, s.outbox, emit, s.clock);
      ReleaseTick(s.notes, s.ticks, tick, Targets(emit));
    }
  }

  lemma EmitKeepsEvents(notes: map<int, Note>, outbox: map<int, OutboxRow>, emit: map<int, int>, at: int)
    requires OneEventPerEmittedNote(notes, outbox) && EventsMatchNotes(notes, outbox)
    requires Injective(emit) && emit.Keys !! outbox.Keys
    requires forall e :: e in emit ==> IsScheduled(notes, emit[e])
    ensures var notes' := MarkQueued(notes, Targets(emit));
            var outbox' := outbox + NewEvents(notes', emit, at);
            OneEventPerEmittedNote(notes', outbox') && EventsMatchNotes(notes', outbox')
  {
    var notes' := MarkQueued(notes, Targets(emit));
    var outbox' := outbox + NewEvents(notes', emit, at);
    forall e | e in outbox ensures outbox[e].body.note !in Targets(emit) && EventMatches(notes', outbox'[e]) {
      assert EventMatches(notes, outbox[e]);
    }
    forall e | e in emit ensures e in outbox' && outbox'[e].body.note == emit[e] && EventMatches(notes', outbox'[e]) {
      assert emit[e] in Targets(emit);
    }
    forall n | n in notes' ensures |EventsOf(outbox', n)| == EventCount(notes'[n].status) {
      EventsAfterEmit(outbox, outbox', emit, n);
    }
  }

  lemma EventsAfterEmit(outbox: map<int, OutboxRow>, outbox': map<int, OutboxRow>, emit: map<int, int>, n: int)
    requires Injective(emit)
    requires forall e :: e in outbox' <==> e in outbox || e in emit
    requires forall e :: e in outbox ==> e !in emit && outbox'[e] == outbox[e] && outbox[e].body.note !in Targets(emit)
    requires forall e :: e in emit ==> outbox'[e].body.note == emit[e]
    ensures if n in Targets(emit) then |EventsOf(outbox', n)| == 1 else EventsOf(outbox', n) == EventsOf(outbox, n)
  {
    if n in Targets(emit) {
      var e :| e in emit && emit[e] == n;
      forall d ensures d in EventsOf(outbox', n) <==> d == e {
        assert d in emit && emit[d] == n ==> d == e;
        assert d in outbox && outbox[d].body.note == n ==> n !in Targets(emit);
      }
      assert EventsOf(outbox', n) == {e};
    } else {
      forall d ensures d in EventsOf(outbox', n) <==> d in EventsOf(outbox, n) {
        assert d in emit ==> emit[d] in Targets(emit);
      }
    }
  }

  lemma ReleaseTick(notes: map<int, Note>, ticks: map<int, set<int>>, tick: int, queued: set<int>)
    requires TicksHoldScheduledRows(notes, ticks) && tick in ticks && queued <= ticks[tick]
    ensures TicksHoldScheduledRows(MarkQueued(notes, queued), ticks - {tick})
  {
    forall t, n | t in ticks - {tick} && n in ticks[t] ensures IsScheduled(MarkQueued(notes, queued), n) {
      assert IsScheduled(notes, n);
      assert n !in ticks[tick];
    }
    forall n | IsScheduled(MarkQueued(notes, queued), n) ensures MarkQueued(notes, queued)[n].scheduledAt.Some? {
      assert IsScheduled(notes, n);
    }
  }

  /* ---------- Publishing ---------- */

  lemma BatchLockKeepsValid(s: Tables, batch: int, rows: seq<int>)
    requires Valid(s)
    ensures Valid(BatchLockStep(s, batch, rows)) && Extends(s, BatchLockStep(s, batch, rows))
  {
    if CanLockBatch(s, batch, rows) {
      var b := Batch(rows, map[]);
      assert Held(b) == set e | e in rows;
      forall d | d in s.batches ensures Held(s.batches[d]) !! Held(b) {
        forall e | e in Held(s.batches[d]) ensures e !in rows {
          assert e in HeldRows(s.batches);
        }
      }
    }
  }

  lemma StreamGrows(stream: seq<Message>, more: seq<Message>, e: int)
    requires OnStream(stream, e)
    ensures OnStream(stream + more, e)
  {
    var i :| 0 <= i < |stream| && stream[i].event == e;
    assert (stream + more)[i].event == e;
  }

  lemma PublishKeepsValid(s: Tables, batch: int, reply: Reply)
    requires Valid(s)
    ensures Valid(PublishStep(s, batch, reply)) && Extends(s, PublishStep(s, batch, reply))
  {
    if batch in s.batches && s.batches[batch].todo != [] && s.batches[batch].todo[0] in s.outbox {
      PublishKeepsBatches(s, batch, reply);
      var event := s.batches[batch].todo[0];
      var more := if reply.Refused? then [] else [Message(event, s.outbox[event].body)];
      assert PublishStep(s, batch, reply).stream == s.stream + more;
      forall e | OnStream(s.stream, e) ensures OnStream(s.stream + more, e) {
        StreamGrows(s.stream, more, e);
      }
    }
  }

  lemma PublishKeepsBatches(s: Tables, batch: int, reply: Reply)
    requires BatchesHoldUnpublishedRows(s.outbox, s.stream, s.batches)
    requires batch in s.batches && s.batches[batch].todo != [] && s.batches[batch].todo[0] in s.outbox
    ensures var s' := PublishStep(s, batch, reply); BatchesHoldUnpublishedRows(s.outbox, s'.stream, s'.batches)
  {
    var s' := PublishStep(s, batch, reply);
    var event := s.batches[batch].todo[0];
    var more := if reply.Refused? then [] else [Message(event, s.outbox[event].body)];
    assert s'.stream == s.stream + more;
    forall e | OnStream(s.stream, e) ensures OnStream(s'.stream, e) {
      StreamGrows(s.stream, more, e);
    }
    forall d | d in s.batches
      ensures BatchOk(s.outbox, s'.stream, s'.batches[d]) && Held(s'.batches[d]) == Held(s.batches[d])
    {
      assert BatchOk(s.outbox, s.stream, s.batches[d]);
      if d == batch {
        PublishedRowIsHeld(s, batch, reply);
      } else {
        forall e | e in Held(s.batches[d]) ensures BatchHoldsRow(s.outbox, s'.stream, s.batches[d], e) {
          assert BatchHoldsRow(s.outbox, s.stream, s.batches[d], e);
        }
      }
    }
  }

  lemma PublishedRowIsHeld(s: Tables, batch: int, reply: Reply)
    requires batch in s.batches && s.batches[batch].todo != [] && s.batches[batch].todo[0] in s.outbox
    requires BatchOk(s.outbox, s.stream, s.batches[batch])
    requires var s' := PublishStep(s, batch, reply); forall e :: OnStream(s.stream, e) ==> OnStream(s'.stream, e)
    ensures var s' := PublishStep(s, batch, reply);
            BatchOk(s.outbox, s'.stream, s'.batches[batch]) && Held(s'.batches[batch]) == Held(s.batches[batch])
  {
    var s', b := PublishStep(s, batch, reply), s.batches[batch];
    var b', event := s'.batches[batch], b.todo[0];
    assert b.todo == [event] + b.todo[1..];
    assert Held(b') == Held(b);
    assert !reply.Refused? ==> s'.stream[|s.stream|].event == event;
    forall e | e in Held(b') ensures BatchHoldsRow(s.outbox, s'.stream, b', e) {
      assert BatchHoldsRow(s.outbox, s.stream, b, e);
    }
  }

  lemma BatchCommitKeepsValid(s: Tables, batch: int)
    requires Valid(s)
    ensures Valid(BatchCommitStep(s, batch)) && Extends(s, BatchCommitStep(s, batch))
  {
    if batch in s.batches && s.batches[batch].todo == [] {
      var done := s.batches[batch].done;
      assert BatchOk(s.outbox, s.stream, s.batches[batch]);
      forall e | e in done ensures BatchHoldsRow(s.outbox, s.stream, s.batches[batch], e) {
        assert e in Held(s.batches[batch]);
      }
      MarksKeepEvents(s.notes, s.outbox, done);
      forall b | b in s.batches - {batch} ensures BatchOk(s.outbox + done, s.stream, s.batches[b]) {
        assert BatchOk(s.outbox, s.stream, s.batches[b]);
        forall e | e in Held(s.batches[b]) ensures BatchHoldsRow(s.outbox + done, s.stream, s.batches[b], e) {
          assert BatchHoldsRow(s.outbox, s.stream, s.batches[b], e);
          assert e !in Held(s.batches[batch]);
        }
      }
      var s' := BatchCommitStep(s, batch);
      forall e | e in s.outbox ensures EventKept(s'.outbox, e, s.outbox[e]) {
        assert e in done ==> BatchHoldsRow(s.outbox, s.stream, s.batches[batch], e);
      }
    }
  }

  lemma MarksKeepEvents(notes: map<int, Note>, outbox: map<int, OutboxRow>, done: map<int, OutboxRow>)
    requires OneEventPerEmittedNote(notes, outbox) && EventsMatchNotes(notes, outbox)
    requires forall e :: e in done ==> e in outbox && done[e].body == outbox[e].body
    ensures OneEventPerEmittedNote(notes, outbox + done) && EventsMatchNotes(notes, outbox + done)
  {
    forall e | e in outbox + done ensures EventMatches(notes, (outbox + done)[e]) {
      assert EventMatches(notes, outbox[e]);
    }
    forall e
      ensures (e in outbox + done) == (e in outbox) && (e in outbox ==> (outbox + done)[e].body == outbox[e].body)
    {
    }
    forall n | n in notes ensures |EventsOf(outbox + done, n)| == EventCount(notes[n].status) {
      assert EventsOf(outbox + done, n) == EventsOf(outbox, n);
    }
  }

  /** The clock may advance and open transactions may end without a trace. */
  lemma ClosingKeepsValid(s: Tables, s': Tables)
    requires Valid(s) && s.clock <= s'.clock && s' == s.(clock := s'.clock, ticks := s'.ticks, batches := s'.batches)
    requires forall t :: t in s'.ticks ==> t in s.ticks && s'.ticks[t] == s.ticks[t]
    requires forall b :: b in s'.batches ==> b in s.batches && s'.batches[b] == s.batches[b]
    ensures Valid(s') && Extends(s, s')
  {
  }

  lemma StepKeepsValid(s: Tables, a: Action)
    requires Valid(s)
    ensures Valid(Step(s, a)) && Extends(s, Step(s, a))
  {
    if a.CheckKey? || a.InsertNote? || a.Reread? {
      CreateActionKeepsValid(s, a);
    } else if a.TickCommit? || a.Publish? || a.BatchCommit? {
      WorkerActionKeepsValid(s, a);
    } else {
      OtherActionKeepsValid(s, a);
    }
  }

  lemma CreateActionKeepsValid(s: Tables, a: Action)
    requires Valid(s) && (a.CheckKey? || a.InsertNote? || a.Reread?)
    ensures Valid(Step(s, a)) && Extends(s, Step(s, a))
  {
    match a
    case CheckKey(call, req) =>
      if Accepted(req) {
        CheckKeyKeepsValid(s, call, req);
      }
    case InsertNote(call, note, event) => InsertKeepsValid(s, call, note, event);
    case Reread(call) => RereadKeepsValid(s, call);
  }

  lemma WorkerActionKeepsValid(s: Tables, a: Action)
    requires Valid(s) && (a.TickCommit? || a.Publish? || a.BatchCommit?)
    ensures Valid(Step(s, a)) && Extends(s, Step(s, a))
  {
    match a
    case TickCommit(tick, emit) => TickCommitKeepsValid(s, tick, emit);
    case Publish(batch, reply) => PublishKeepsValid(s, batch, reply);
    case BatchCommit(batch) => BatchCommitKeepsValid(s, batch);
  }

  lemma OtherActionKeepsValid(s: Tables, a: Action)
    requires Valid(s) && !a.CheckKey? && !a.InsertNote? && !a.Reread?
    requires !a.TickCommit? && !a.Publish? && !a.BatchCommit?
    ensures Valid(Step(s, a)) && Extends(s, Step(s, a))
  {
    match a
    case Advance(now) => ClosingKeepsValid(s, s.(clock := Max(s.clock, now)));
    case Cancel(note) => CancelKeepsValid(s, note);
    case TickLock(tick, limit) => TickLockKeepsValid(s, tick, limit);
    case TickAbort(tick) => ClosingKeepsValid(s, s.(ticks := s.ticks - {tick}));
    case BatchLock(batch, rows) => BatchLockKeepsValid(s, batch, rows);
    case BatchAbort(batch) => ClosingKeepsValid(s, s.(batches := s.batches - {batch}));
  }

  lemma {:induction false} RunKeepsValid(s: Tables, actions: seq<Action>)
    requires Valid(s)
    ensures Valid(Run(s, actions)) && Extends(s, Run(s, actions))
    decreases |actions|
  {
    if actions != [] {
      StepKeepsValid(s, actions[0]);
      RunKeepsValid(Step(s, actions[0]), actions[1..]);
      ExtendsIsTransitive(s, Step(s, actions[0]), Run(s, actions));
    }
  }
}
